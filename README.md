# pretty-please: the comment-command gate

pretty-please is a GitHub Action meant to be triggered by a comment on a pull
request. Its source is one entry point, `run`, and one classifier,
`testComment`, in `src/main.ts`. This project models that file in Dafny:

- `JsString` (`js_string.dfy`) models JavaScript's `String.prototype.trim`,
  which the classifier relies on: it removes the leading and trailing
  characters that ECMAScript counts as WhiteSpace or LineTerminator.
- `PrettyPlease` (`main.dfy`) models `testComment` as `TestComment`. The
  `PrettierPleaseCommand` enum becomes `Command`. The entry point `run`
  becomes the pure function `Run`.

`testComment` returns the command exactly when the trimmed comment starts
with the literal, case-sensitive phrase `prettier, please!`.

`run` reads the required `github-token` input. It then checks that the event
is `issue_comment` and classifies the comment body. If the body is the
command and the payload has no `changes`, it builds the REST client from
the token and fetches the issue. If that issue
is a pull request, it posts the comment `I ran!` on it. An error thrown
anywhere in the `try` block ends the run as failed with that error's message.

`Run` takes the event and the result of each foreign call (a value or a
thrown message). It returns the REST requests issued, in order, and one
`Outcome`: `UnsupportedEvent`, `NoCommandExit`, `NotAPullRequest`,
`PostedIRan` or `Failed(message)`.

What the code does, and so what the model does:

- An edited comment (a truthy `payload.changes`) ends in `NoCommandExit`,
  even when it contains the trigger phrase. The condition on line 16 says
  so, though the code comment on line 14 suggests edits were meant to be
  handled.
- There is no open/closed check on the pull request.
- No files are listed, formatted, committed or pushed.
- The only write is the single `I ran!` comment.

## Model

| member | source | states |
|---|---|---|
| `JsString.IsWhiteSpace` | src/main.ts:57 | the characters `trim` removes: ECMAScript WhiteSpace (TAB, VT, FF, ZWNBSP, category Zs) and LineTerminator (LF, CR, LS, PS); every one lies in the Basic Multilingual Plane |
| `JsString.IsWhiteSpaceExamples` | src/main.ts:57 | LF, CR, NBSP and U+3000 are white space; NEL (U+0085), U+180E and the zero-width space U+200B are not |
| `JsString.LeadingWhiteSpace` | src/main.ts:57 | the count of leading characters removed by `trim`: all of them are white space, and the next character, if there is one, is not |
| `JsString.TrailingWhiteSpace` | src/main.ts:57 | the count of trailing characters removed by `trim`: all of them are white space, and the character before them, if there is one, is not |
| `JsString.Trim` | src/main.ts:57 | the trimmed text neither starts nor ends with white space and is no longer than the input |
| `JsString.TrimEmpty` | src/main.ts:57 | a string trims to the empty string exactly when it is all white space |
| `JsString.TrimUnique` | src/main.ts:57 | for white space, then text with no white space at either end, then white space, `trim` returns exactly that middle text |
| `JsString.TrimSplits` | src/main.ts:57 | every string is white space, then its trimmed text, then white space |
| `JsString.TrimIgnoresSurroundingWhiteSpace` | src/main.ts:57 | adding white space before or after a string does not change its trimmed text |
| `JsString.TrimFixesTrimmed` | src/main.ts:57 | a string with no white space at either end is left unchanged by `trim` |
| `JsString.TrimIdempotent` | src/main.ts:57 | trimming an already trimmed string changes nothing |
| `JsString.TrimKeepsPhrase` | src/main.ts:57 | a phrase with no white space at either end that follows the leading white space is still a prefix after trimming |
| `PrettyPlease.TestComment` | src/main.ts:51-62 | `testComment`, with the `PrettierPleaseCommand` enum as `Command`: total over all strings, and a comment that is all white space or shorter than `prettier, please!` is never `Prettier` |
| `PrettyPlease.TestCommentRecognises` | src/main.ts:56-62 | the classifier returns `Prettier` exactly when the comment is some white space, then `prettier, please!`, then anything; otherwise it returns `Nothing` |
| `PrettyPlease.TestCommentIgnoresSurroundingWhiteSpace` | src/main.ts:57 | white space and line breaks around a comment do not change its command |
| `PrettyPlease.TestCommentIgnoresTrailingText` | src/main.ts:57 | the trigger phrase followed by anything at all is the command |
| `PrettyPlease.TestCommentAcceptsExamples` | src/main.ts:57 | `prettier, please!` followed by a line break, or by ` now`, is the command (written as the phrase constant plus that text) |
| `PrettyPlease.TestCommentIsCaseSensitive` | src/main.ts:57 | `Prettier, please!` with a capital P is not the command |
| `PrettyPlease.TestCommentRejectsOtherText` | src/main.ts:57 | `please format this` is not the command |
| `PrettyPlease.Run` | src/main.ts:7-49 | the requests issued are always a prefix of "fetch the issue, then post `I ran!` on it": the issue is fetched at most once, at most one comment is posted and never before the fetch, and both go to the issue the event came from |
| `PrettyPlease.UnsupportedEventMakesNoCalls` | src/main.ts:10-45 | an event other than `issue_comment` makes no request and, once the token is read, ends as `UnsupportedEvent` without failing |
| `PrettyPlease.NoCommandMakesNoCalls` | src/main.ts:15-40 | on an `issue_comment`, a body that is not the command or a payload with `changes` ends in `NoCommandExit` before any request |
| `PrettyPlease.EditedCommentNeverReplies` | src/main.ts:14-16 | an edited comment makes no request and never gets a reply, whatever its text |
| `PrettyPlease.ReplyConditions` | src/main.ts:9-31 | the reply is requested exactly when the token was read, the event is `issue_comment`, the body is the command, `changes` is absent, the client was built and the fetched issue has `pull_request`; the outcome is `PostedIRan` exactly when, in addition, posting did not throw |
| `PrettyPlease.FetchConditions` | src/main.ts:9-24 | the issue is fetched exactly when the token was read, the event is `issue_comment`, the body is the command, `changes` is absent and the client was built |
| `PrettyPlease.NotAPullRequestWritesNothing` | src/main.ts:25-35 | once the gate is passed and the client built, a fetched issue without `pull_request` ends in `NotAPullRequest` after the fetch alone, with no comment |
| `PrettyPlease.FailuresCarryThrownMessage` | src/main.ts:8-48 | each error ends the run where it was thrown, as `Failed` with that error's message: a thrown token read or client construction before any request, a thrown fetch after the fetch alone (no comment follows), a thrown post after both requests |
| `PrettyPlease.FailsExactlyWhenACallThrew` | src/main.ts:8-48 | a run fails exactly when a call it made threw: the token read, the client construction after the gate, the issue fetch when that was the only request, or the comment post when both requests were made |
| `PrettyPlease.RunIgnoresSurroundingWhiteSpace` | src/main.ts:15-16 | white space around the comment body never changes the requests or the outcome of a run |
| `PrettyPlease.ScenarioTriggerOnPullRequest` | src/main.ts:10-31 | a new comment `prettier, please!` plus a line break on pull request 42, with every call succeeding, fetches issue 42, then posts `I ran!` on it, and ends in `PostedIRan` |
| `PrettyPlease.ScenarioNotACommand` | src/main.ts:15-39 | the comment `please format this` makes no request and ends in `NoCommandExit` |

## Left out

- Calls into the Actions toolkit and the GitHub REST client are not modelled. This covers `core.getInput`, `github.getOctokit`, `issues.get` and `issues.createComment`. Each appears only as the value it returns or the message it throws, given to `Run` as input (the `token`, `client`, `issue` and `created` fields of `Collaborators`). The conditions under which `core.getInput` and `github.getOctokit` throw live in those libraries and are not part of this model.
- The calls in `Run`'s result are requests issued. Whether GitHub stored a comment whose request then threw is not modelled.
- `core.debug`, `core.error` and `core.setFailed` are logging side effects. They appear only as outcome tags. `Failed` is the only outcome that marks the run as failed.
- `process.exit()` (line 39) and the async/Promise machinery are runtime plumbing. `NoCommandExit` stands for that exit.
- The webhook payload is reduced to the fields the gate reads: the event name, the comment body, whether `changes` is truthy, the issue number and the repository.
- Comments are strings of Unicode characters, whereas JavaScript strings are UTF-16 code units. Every character `trim` removes lies in the Basic Multilingual Plane, so the result is the same.
- Reformatting a pull request is not modelled, because `src/main.ts` has no code for it: it has no closed-PR check, no listing or filtering of changed files, no checkout, formatting, change detection or commit/push.

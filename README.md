# Repository remix: a Dafny model

This project models the repository "remix" of polar-page-start. It has two
parts.

- **The edge function `github-remix`.** It copies the content of one GitHub
  repository onto another through GitHub's Git Data API, in eight steps:
  1. read the source default branch;
  2. list the source tree and keep its blobs;
  3. read the destination default branch;
  4. read the destination tip;
  5. copy every blob;
  6. create a tree from the copied blobs;
  7. create a commit whose only parent is that tip;
  8. force-update the branch.
- **The page that starts a remix.** It reads two GitHub URLs and one or two
  tokens, sends the request and shows the server's log.

`Common` (`Common.dfy`) holds what both sides share:
- the log entry, with its four severities;
- an `Option`;
- the decimal rendering that template literals apply to numbers.

`GithubRemix` (`GithubRemix.dfy`) models the handler.
- **The network is an oracle.** `Remote` gives the reply to every call from
  the call and from its position in the trace.
- **A reply** is one of three things:
  - the field the handler reads from a 2xx answer;
  - a non-2xx status with its body text;
  - an exception. This covers a rejected `fetch`, a body that is not JSON, and
    a missing field the handler dereferences (`tree`, `object.sha`, the
    commit's `sha`).
- **Every call is recorded** in a trace of `Call(token, op)`. The two sessions
  `ghSource` and `ghDest` are `Session` values that sign each call with their
  own token.
- **`Handle` is the reference definition.** It is a chain of step functions,
  one per step, and the copy loop is the recursive `CopyFrom`.
- **`Serve` is the handler as written.** It is imperative: a log accumulator,
  a trace, a `while` loop over the files that builds `newTreeItems`, and the
  early returns. It is proved equal to `Handle` for every body and every remote.
- **Trace predicates** say what a run does:
  - `Signed`: which session and which repository each call uses;
  - `Prescribed`: which call the protocol allows at each position, given the
    earlier replies;
  - `Continued` and `Ended`: how the last reply decides the response;
  - `Replay` and `Inventoried`: which tree the run builds. `Replay` reads the
    loop's calls back, file by file, as the fate of each file: kept at the
    sha of its upload, unread, or not created;
  - `LoopNotes`: which warnings the run logs, namely the loop's skip notes for
    that same read-back, and no others.
- **The lemmas prove that `Handle` satisfies them,** step by step.

`IndexPage` (`IndexPage.dfy`) models the page.
- **`ParseGitHubUrl`** is the pattern `github\.com\/([^/]+)\/([^/\s?.]+)` as
  a scanner that tries each start position in turn. It is proved against a
  declarative `Occurs`.
- **`Page` is a class** with the page's state as fields. `HandleRemix`
  updates `logs` and `loading` step by step. It copies the server's log in a
  loop and is proved against the functions `Outgoing` (the request it sends)
  and `Transcript` (the log it leaves).
- **`invoke` is a function parameter.** It stands for the call to the edge
  function.

Three details of the code are easy to misread, and the model follows the code
in each:
- **Error text.** The missing-fields error is "Campos obrigatórios faltando".
  All log texts are the Portuguese strings of the code.
- **Token fallback.** The legacy `token` is a fallback for each of
  `sourceToken` and `destToken` separately. It is not applied only when both
  are absent.
- **The `.git` strip.** It never removes anything. The repository pattern
  cannot read a '.', so a `.git` suffix is never part of the match, which
  already stops at the '.'.

## Model

| member | source | states |
|---|---|---|
| GithubRemix.Serve | supabase/functions/github-remix/index.ts:14-242 | The handler as written gives, for every body and every remote, exactly the response and the call trace of the reference definition `Handle`. |
| GithubRemix.Handle | supabase/functions/github-remix/index.ts:24-41 | A body that cannot be read gives the catch-all 500 answer with one error entry and no call. A request with an empty owner, repository or effective token gives 400 with the error "Campos obrigatórios faltando", an empty log and no call. |
| GithubRemix.Or | supabase/functions/github-remix/index.ts:29-30 | `preferred \|\| fallback` on strings: the preferred value when it is non-empty, otherwise the fallback. The result is empty only when both are empty. |
| GithubRemix.Session.Sign | supabase/functions/github-remix/index.ts:43-63 | A call through a session carries that session's token and the operation asked for. |
| GithubRemix.Blobs | supabase/functions/github-remix/index.ts:92 | The filtered listing holds only entries of type "blob", and exactly the blob entries of the listing. |
| GithubRemix.ShortSha | supabase/functions/github-remix/index.ts:208 | `substring(0, 7)`: a prefix of the sha, 7 characters long, or the whole sha if it is shorter. |
| GithubRemix.Caught | supabase/functions/github-remix/index.ts:236-241 | The catch-all appends one error entry, answers 500 with `success` false, and carries the exception's message as its error. |
| GithubRemix.ReadRepos | supabase/functions/github-remix/index.ts:65-93 | Steps 1-2 as written, with their early returns, give the outcome of the reference definition. When the run goes on, the run reached the copy phase: the branch, the blob list and the tip are the replies to the calls that read them. |
| GithubRemix.ReadDest | supabase/functions/github-remix/index.ts:95-122 | Steps 3-4 as written give the outcome of the reference definition. When the run goes on, it reached the copy phase with the destination branch and tip read by calls 3 and 4. |
| GithubRemix.CopyBlobs | supabase/functions/github-remix/index.ts:124-162 | The `for` loop over the files, with `continue` on a failed read or create, builds the items and the log of the recursive `CopyFrom`. |
| GithubRemix.Transfer | supabase/functions/github-remix/index.ts:124-163 | Steps 5-8 as written give the outcome of the reference definition, from the run that reached the copy phase. |
| GithubRemix.PublishTree | supabase/functions/github-remix/index.ts:165-235 | Steps 6-8 as written give the outcome of the reference definition. The tree, the commit and the forced update are made in that order, and each refusal returns that step's 500 answer. |
| GithubRemix.HandleSettles | supabase/functions/github-remix/index.ts:65-241 | A request with every field makes at least one call. Every call is proper, every call but the last let the run go on, and the reply to the last call decides the response. |
| GithubRemix.HandleResponse | supabase/functions/github-remix/index.ts:65-241 | For a request with every field: `success` holds exactly when the last call is the branch update and it succeeded. Success is status 200 with no error and the last two entries of type success. Failure carries an error, status 400 or 500, and an error entry last. |
| GithubRemix.HandleCalls | supabase/functions/github-remix/index.ts:43-221 | Every call of a run goes through the session that owns its repository: the source token for the source reads, the destination token for everything else. Every call is the one the protocol prescribes: each blob read is the read of the next listed file's sha, after the earlier files' calls, and the commit has the fixed message, the new tree's sha and the step-4 tip as its only parent. The forced update follows a successful commit and is the last call. No call but the last failed fatally. |
| GithubRemix.HandleTree | supabase/functions/github-remix/index.ts:124-175 | The tree the run asks the destination to create is decided file by file from the run's own calls. Replaying the loop's calls over the blobs of the source listing gives one fate per file. The tree holds exactly the kept files, in listing order, each re-pointed at the sha its own upload returned, and nothing else. |
| GithubRemix.Text | supabase/functions/github-remix/index.ts:66-237 | Plain definition: every log message and error of the handler, rendered to the code's exact Portuguese string. Counts and statuses go through `Decimal`. |
| GithubRemix.CommitMessage | supabase/functions/github-remix/index.ts:194 | Plain definition: the commit message "remix: conteúdo clonado de " followed by the source owner, '/', and the source repository. |
| GithubRemix.SourceToken | supabase/functions/github-remix/index.ts:29 | Plain definition: `sourceToken \|\| token`, through `Or`. |
| GithubRemix.DestToken | supabase/functions/github-remix/index.ts:30 | Plain definition: `destToken \|\| token`, through `Or`. |
| GithubRemix.HasRequiredFields | supabase/functions/github-remix/index.ts:32 | Plain definition: the four names and both effective tokens are non-empty. `Handle` answers 400 with no call exactly when it fails. |
| GithubRemix.Fetch | supabase/functions/github-remix/index.ts:43-63 | A call through a session appends that session's token and the operation to the trace, and its reply is the remote's answer to that call at its position. |
| GithubRemix.FetchListing | supabase/functions/github-remix/index.ts:81-91 | The same for the tree listing: the call is appended to the trace and its reply is the remote's listing for that call at its position. |
| GithubRemix.BlobsAppend | supabase/functions/github-remix/index.ts:92 | The filter keeps order and multiplicity: the blobs of a concatenation are the blobs of the first part followed by the blobs of the second. |
| GithubRemix.BlobsOne | supabase/functions/github-remix/index.ts:92 | A single entry survives the filter exactly when its type is "blob". |
| GithubRemix.SourceRepoStep | supabase/functions/github-remix/index.ts:65-77 | Plain definition of step 1 in the reference definition. `SourceRepoSettles` states what it does. |
| GithubRemix.SourceTreeStep | supabase/functions/github-remix/index.ts:79-93 | Plain definition of step 2. `SourceTreeSettles` states what it does. |
| GithubRemix.DestRepoStep | supabase/functions/github-remix/index.ts:95-107 | Plain definition of step 3. `DestRepoSettles` states what it does. |
| GithubRemix.DestRefStep | supabase/functions/github-remix/index.ts:109-122 | Plain definition of step 4. `DestRefSettles` states what it does. |
| GithubRemix.CopyStep | supabase/functions/github-remix/index.ts:124-163 | Plain definition of step 5. `CopySettles` and `CopyReport` state what it does. |
| GithubRemix.TreeStep | supabase/functions/github-remix/index.ts:165-185 | Plain definition of step 6. `TreeSettles` and `TreeIssues` state what it does. |
| GithubRemix.CommitStep | supabase/functions/github-remix/index.ts:187-208 | Plain definition of step 7. `CommitSettles` and `CommitProper` state what it does. |
| GithubRemix.BranchStep | supabase/functions/github-remix/index.ts:210-235 | Plain definition of step 8. `BranchSettles` states what it does. |
| GithubRemix.CopyOne | supabase/functions/github-remix/index.ts:128-161 | Plain definition of one iteration of the loop. `CopyOneReplay` and `CopyOneCopies` state what it does. |
| GithubRemix.CopyFrom | supabase/functions/github-remix/index.ts:128-162 | Plain definition of the loop. `CopyFromReplay` and `CopyFromCopies` state what it does. |
| GithubRemix.ReadCall | supabase/functions/github-remix/index.ts:130-132 | Plain definition: the read of a file's blob, by its sha, through the source session. |
| GithubRemix.CreateCall | supabase/functions/github-remix/index.ts:140-149 | Plain definition: the creation of a blob from the content read, through the destination session. |
| GithubRemix.SourceRepoCall | supabase/functions/github-remix/index.ts:67 | Plain definition: the read of the source repository, through the source session. |
| GithubRemix.SourceTreeCall | supabase/functions/github-remix/index.ts:81-83 | Plain definition: the recursive listing of the source branch, through the source session. |
| GithubRemix.DestRepoCall | supabase/functions/github-remix/index.ts:97 | Plain definition: the read of the destination repository, through the destination session. |
| GithubRemix.DestRefCall | supabase/functions/github-remix/index.ts:111-113 | Plain definition: the read of the destination branch's ref, through the destination session. |
| GithubRemix.NewTreeCall | supabase/functions/github-remix/index.ts:167-175 | Plain definition: the creation of a tree of the copied items, through the destination session. |
| GithubRemix.NewCommitCall | supabase/functions/github-remix/index.ts:189-199 | Plain definition: the commit of the new tree with the fixed message and the tip as its only parent. |
| GithubRemix.MoveBranchCall | supabase/functions/github-remix/index.ts:212-221 | Plain definition: the forced update of the destination branch to the new commit. |
| GithubRemix.Advance | supabase/functions/github-remix/index.ts:128-161 | Reading one iteration back from the trace takes one call (read refused) or two (read, then upload), and stays inside the trace. |
| GithubRemix.Replay | supabase/functions/github-remix/index.ts:128-162 | Reading the loop back gives at most one fate per file, and ends inside the trace, no earlier than it started. |
| GithubRemix.KeptItems | supabase/functions/github-remix/index.ts:156-161 | The items of the kept files are all of type "blob", at most one per file. |
| GithubRemix.SkipNotes | supabase/functions/github-remix/index.ts:133-152 | The entries for the skipped files are all warnings, and every file leaves either one item or one warning: items plus warnings equals the files replayed. |
| GithubRemix.CopyOneReplay | supabase/functions/github-remix/index.ts:128-161 | An iteration that does not throw ends exactly where reading it back ends. It appends the file, re-pointed at its own upload's sha, exactly when the file is kept. Otherwise it appends the read or create warning for that file's path. An iteration that throws logs nothing, and reading it back gives no fate. |
| GithubRemix.CopyFromReplay | supabase/functions/github-remix/index.ts:128-162 | A loop that does not throw appends exactly the kept files, in order, each re-pointed at its own iteration's upload, and reading the loop back ends at its last call. Whether or not it throws, the log gets exactly one warning per skipped file, in order, for the files read back before the exception. |
| GithubRemix.CopyOneCopies | supabase/functions/github-remix/index.ts:128-161 | One iteration, from a trace where the earlier files were replayed, only issues proper calls: the read of this file's sha and the upload of its content. |
| GithubRemix.LoopingDue | supabase/functions/github-remix/index.ts:128-132 | After the first n files were replayed, the read the protocol expects next is the read of file n's sha. |
| GithubRemix.ReplayAllKept | supabase/functions/github-remix/index.ts:128-162 | When every reply of the loop answered, file i was read by call pos + 2i and kept at the sha that call pos + 2i + 1 returned. |
| GithubRemix.KeptAll | supabase/functions/github-remix/index.ts:156-161 | When every file is kept, the items are all the files, in order, each re-pointed at its own sha. |
| GithubRemix.KeptUploads | supabase/functions/github-remix/index.ts:128-162 | A complete loop whose every reply answered takes two calls per file. It reads the files in listing order, and its items re-point each file at its own upload's sha. |
| GithubRemix.AllOkSettled | supabase/functions/github-remix/index.ts:65-235 | A run settled from the start whose every call answered succeeds and copies every listed blob. The statement is `CopiedAll`: 7 + 2n calls, call 4 + 2i reads file i, and the tree is the files re-pointed at the shas returned by calls 5 + 2i. |
| GithubRemix.HandleAllOk | supabase/functions/github-remix/index.ts:65-235 | When every call of a request with every field answered on the channel it uses (the listing for the tree read, the text for every other call), the handler succeeds and the tree it creates holds every blob of the source listing, in order, each at the sha of its own upload. |
| GithubRemix.HandleWarnings | supabase/functions/github-remix/index.ts:124-163 | The warnings in a complete request's response are exactly the loop's: one per skipped file, in listing order, read or create warning as its calls say. A run that never listed the source tree has none. |
| GithubRemix.HandleWarningCount | supabase/functions/github-remix/index.ts:124-175 | When the tree is created, its items and the response's warnings together number the listed blobs. The warnings are the skip notes of the same replay that gives the tree. |
| GithubRemix.LoopNotes | supabase/functions/github-remix/index.ts:128-162 | The warnings the loop still has to log, from a point of the run: all its skip notes before it begins, none after. Each one is a warning. |
| GithubRemix.CopyWarns | supabase/functions/github-remix/index.ts:124-163 | After a loop that did not throw, the run's warnings are the earlier ones plus the skip notes of every listed file, as read back from the whole trace. |
| GithubRemix.CopyCrashWarns | supabase/functions/github-remix/index.ts:124-163 | After a loop that threw, the catch-all response's warnings are the earlier ones plus the skip notes of the files it went through. |
| GithubRemix.CopyFromCopies | supabase/functions/github-remix/index.ts:128-162 | The loop only reads and creates blobs, through the right sessions, and appends only warnings to the log. Each read is the read of the next file's sha, after the earlier files' calls. An exception ends it at the call that threw. |
| GithubRemix.SkippableCopies | supabase/functions/github-remix/index.ts:130-153 | A blob read or create either leaves the loop on an exception, warns and skips on a refusal, or goes on with the reply's value. |
| GithubRemix.CopyReport | supabase/functions/github-remix/index.ts:163-172 | The count logged after the loop is the number of items, and the next call creates a tree of exactly those items. An exception in the loop gives a failed response with no further call. |
| GithubRemix.CopyReaches | supabase/functions/github-remix/index.ts:124-163 | After the loop the run has reached the tree step with the items drawn from the listed blobs. The log and the trace were only extended. |
| GithubRemix.TreeIssues | supabase/functions/github-remix/index.ts:165-175 | The tree step issues, through the destination session, the creation of a tree of exactly the built items. |
| GithubRemix.CommitProper | supabase/functions/github-remix/index.ts:187-199 | The commit call is the prescribed one: fixed message, the new tree's sha, parents exactly the step-4 tip, on the destination. |
| GithubRemix.AttemptSettles | supabase/functions/github-remix/index.ts:66-77 | A fatal step either stops the run, with a response its reply decides (catch-all on an exception, the step's status and error on a refusal), or goes on with the reply's value. |
| GithubRemix.CrashPublishes | supabase/functions/github-remix/index.ts:236-241 | A proper call that threw settles the run with the catch-all answer, keeping the earlier log and calls. |
| GithubRemix.FailPublishes | supabase/functions/github-remix/index.ts:68-74 | A proper fatal call that was refused settles the run with that step's status and error and an error entry last. |
| GithubRemix.SourceRepoSettles | supabase/functions/github-remix/index.ts:65-77 | From the start, the run settles: steps 1-8 keep the log and trace so far, and end as `Ended` says. |
| GithubRemix.SourceTreeSettles | supabase/functions/github-remix/index.ts:79-93 | From step 2, the run settles, keeping the log and the calls so far. |
| GithubRemix.DestRepoSettles | supabase/functions/github-remix/index.ts:95-107 | From step 3, the run settles, keeping the log and the calls so far. |
| GithubRemix.DestRefSettles | supabase/functions/github-remix/index.ts:109-122 | From step 4, the run settles, keeping the log and the calls so far. |
| GithubRemix.CopySettles | supabase/functions/github-remix/index.ts:124-163 | From step 5, the run settles, keeping the log and the calls so far. The warnings it adds are exactly the loop's skip notes. |
| GithubRemix.TreeSettles | supabase/functions/github-remix/index.ts:165-185 | From step 6, the run settles; a refused tree creation answers 500. |
| GithubRemix.CommitSettles | supabase/functions/github-remix/index.ts:187-208 | From step 7, the run settles; a refused commit answers 500. |
| GithubRemix.BranchSettles | supabase/functions/github-remix/index.ts:210-235 | From step 8, the run settles: a successful forced update answers 200 with two success entries last; a refusal answers 500. |
| GithubRemix.SettledCalls | supabase/functions/github-remix/index.ts:65-235 | In a settled run every call is signed and prescribed, and every call but the last went on and is not the branch update. |
| Common.Warnings | supabase/functions/github-remix/index.ts:124-163 | The warnings of a log: entries of type warning only, no more than the log holds. The copy loop's two skip messages are the only warnings the handler logs; `HandleWarnings` reads them off the response with it. |
| Common.WarningsAppend | supabase/functions/github-remix/index.ts:124-163 | The warnings of a log grown by the loop are the earlier warnings followed by the loop's. This is how the step proofs split the response's warnings around the loop. |
| Common.Decimal | supabase/functions/github-remix/index.ts:69 | `${n}` of a count or status: a non-empty string of decimal digits with no leading zero. |
| Common.DecimalRoundTrip | supabase/functions/github-remix/index.ts:93 | Reading back the rendered digits gives the number again. |
| IndexPage.SearchFrom | src/pages/Index.tsx:24 | Plain definition: the scan that tries each start position in turn. `SearchFromLeftmost` states what it returns. |
| IndexPage.StripGit | src/pages/Index.tsx:26 | Plain definition of the `.git` strip. `StripGitSuffix` and `StripGitUnused` state what it does. |
| IndexPage.ParseGitHubUrl | src/pages/Index.tsx:23-27 | Plain definition of `parseGitHubUrl`. `ParseNone`, `ParseSome` and `ParseWidgets` state what it returns. |
| IndexPage.Outgoing | src/pages/Index.tsx:29-62 | Plain definition of the request the page sends. `OutgoingSent`, `OutgoingTokens` and `OutgoingComplete` state it. |
| IndexPage.Transcript | src/pages/Index.tsx:43-82 | Plain definition of the page's log after sending. `TranscriptOrder` states it. |
| IndexPage.Delivery | src/pages/Index.tsx:53-68 | Plain definition of how the client library hands a response to the page: a 2xx answer as its JSON, any other status as an invocation error. |
| IndexPage.SlashFrom | src/pages/Index.tsx:24 | The owner group `[^/]+` runs up to the first '/' or the end. |
| IndexPage.RepoEnd | src/pages/Index.tsx:24 | The repository group `[^/\s?.]+` runs up to the first '/', white space, '?' or '.', or the end. |
| IndexPage.MatchAt | src/pages/Index.tsx:24 | A match at a position has a non-empty owner without '/' and a non-empty repository of the repository class. |
| IndexPage.MatchAtOccurs | src/pages/Index.tsx:24 | The pattern matches at a position exactly when the host, a run without '/', a '/' and a repository character occur there. |
| IndexPage.SlashFromFirst | src/pages/Index.tsx:24 | The owner group stops at the first '/', not a later one. |
| IndexPage.RepoEndLast | src/pages/Index.tsx:24 | The repository group stops at the first character outside its class. |
| IndexPage.MatchAtSpells | src/pages/Index.tsx:24 | A match spells the host, the owner, '/' and the repository, and the next character cannot extend the repository. |
| IndexPage.SearchFromLeftmost | src/pages/Index.tsx:24-25 | The scan returns nothing exactly when no position matches, and otherwise the match at the leftmost position that matches. |
| IndexPage.ParseNone | src/pages/Index.tsx:24-25 | `parseGitHubUrl` returns null exactly when the pattern matches nowhere in the URL. |
| IndexPage.ParseSome | src/pages/Index.tsx:24-26 | A parsed URL gives a non-empty owner without '/' and a non-empty repository without '/', white space, '?' or '.'. Both are read at the leftmost match, and the repository cannot be extended. |
| IndexPage.StripGitUnused | src/pages/Index.tsx:26 | The `.git` strip leaves every repository the pattern can read unchanged. |
| IndexPage.StripGitSuffix | src/pages/Index.tsx:26 | The strip removes a trailing ".git" from any name. |
| IndexPage.ParseWidgets | src/pages/Index.tsx:23-27 | "https://github.com/acme/widgets.git" reads as owner "acme" and repository "widgets". |
| IndexPage.WidgetsLeftmost | src/pages/Index.tsx:24 | In that URL no position before the host starts a match. |
| IndexPage.OutgoingSent | src/pages/Index.tsx:29-41 | A request leaves exactly when the parent token is filled in, the child token too unless both repositories are in the same account, and both URLs parse. |
| IndexPage.OutgoingTokens | src/pages/Index.tsx:53-62 | The request carries the parsed owners and repositories, the parent token as source token, and as destination token the parent token for the same account and the child token otherwise. |
| IndexPage.OutgoingComplete | src/pages/Index.tsx:53-62 | Every request the page sends passes the edge function's field check. The edge function then signs with exactly the two tokens the page chose. |
| IndexPage.TranscriptOrder | src/pages/Index.tsx:43-82 | The log starts with four info entries. For an answer, the server's entries follow unchanged and in order, then one entry that is a success exactly when the server reported success. For an invocation error or an exception, a single error entry follows. |
| IndexPage.Rendered | supabase/functions/github-remix/index.ts:19-22 | The `logs` array of the edge function's JSON answers: one entry per log entry, in order, each with the message's text and its type. |
| IndexPage.RemixReported | src/pages/Index.tsx:70-82 | For a request the page sends, the page's log ends with a success entry exactly when the edge function reports success. In that case the server's whole log comes, in order, before that entry. |
| IndexPage.Page.constructor | src/pages/Index.tsx:10-17 | The page starts with empty fields, the same-account switch on, not loading and an empty log. |
| IndexPage.Page.AddLog | src/pages/Index.tsx:19-21 | `addLog` appends one entry and changes nothing else. |
| IndexPage.Page.Relay | src/pages/Index.tsx:70-74 | The `forEach` loop appends the server's entries in order and changes nothing else. |
| IndexPage.Page.Report | src/pages/Index.tsx:64-85 | After the call the page appends the closing entries: the server's entries and the verdict, or one error entry. |
| IndexPage.Page.HandleRemix | src/pages/Index.tsx:29-89 | The form fields are unchanged. The request sent is `Outgoing` of the fields. When nothing is sent, the log and the busy flag are as before. Otherwise the log is exactly `Transcript` of the parsed repositories and the answer, and the page is no longer busy. |

## Left out

- The HTTP layer: `serve`, the OPTIONS preflight, CORS headers and the Accept and Content-Type headers. A call is its operation and the token of its session.
- JSON: reading the request body is a `Body` value. A body that cannot be read is `Unparsable` and goes to the catch-all. An absent or non-string field is modelled as "". Reading a field of a reply is the oracle's `Ok` value, and an exception while reading one is its `Threw`.
- A field the handler only reads (the two `default_branch` values, the blob's `content`, the new blob's and the new tree's `sha`) is `undefined` in JavaScript when a 2xx answer lacks it, and the handler goes on with it. The model has no separate case for that: it is covered only as the oracle's `Ok` string. For example, `Ok("undefined")` for step 1 gives the log entry and the tree URL that index.ts:76-83 then produce.
- Blob content and base64 encoding: the content is a string passed on unchanged.
- The timing and order of remote effects beyond the trace, including the race between the step-4 tip read and the step-8 forced update: the oracle answers each call from its position in the trace alone.
- Log messages are a datatype rendered to the code's exact strings by `GithubRemix.Text`; the handler's JSON carries those strings.
- React itself: state hooks, re-rendering, `toast`, the JSX and the `TerminalLog` component. The page's state is a class with fields, and its form fields are read as they stand when the handler starts.
- Timestamps (`new Date()`) on the page's log entries.
- `supabase.functions.invoke` is a function parameter. `IndexPage.Delivery` assumes a 2xx answer becomes `data` and any other status an invocation error whose message the client library chooses. The library is not part of this model.
- A server `logs` that is present but not an array would make `forEach` throw into the `catch`; the model reads it as absent.

/** The `github-remix` edge function: it copies every file of a source
    repository onto the default branch of a destination repository through
    GitHub's Git Data API, in eight sequential steps, and answers with a
    success flag, an error and the ordered progress log.

    The network is an oracle: `Remote` answers each call as a function of the
    calls issued before it, so the handler is a deterministic computation over
    that oracle and its trace of calls. `Handle` is the reference definition,
    step by step; `Serve` is the handler as written (log accumulator, early
    returns, a loop over the files) and is proved to compute exactly `Handle`. */
module GithubRemix {
  import opened Common

  // ---------------------------------------------------------------------------
  // Request, remote calls and replies
  // ---------------------------------------------------------------------------

  /** The JSON body of the request. A field that is absent, null or otherwise
      falsy is the empty string here. `token` is the legacy single credential. */
  datatype Request = Request(
    sourceOwner: string, sourceRepo: string,
    destOwner: string, destRepo: string,
    token: string, sourceToken: string, destToken: string)

  /** The outcome of `await req.json()` and its destructuring: the fields, or
      the message of the error it throws. */
  datatype Body = Parsed(request: Request) | Unparsable(message: string)

  /** An entry of a tree listing, and of the tree the handler builds:
      `type` is `kind` here. */
  datatype TreeEntry = TreeEntry(path: string, mode: string, kind: string, sha: string)

  /** The requests the handler issues, by endpoint.
      GetRepo:    GET   /repos/{owner}/{repo}
      GetTree:    GET   /repos/{owner}/{repo}/git/trees/{branch}?recursive=1
      GetRef:     GET   /repos/{owner}/{repo}/git/ref/heads/{branch}
      GetBlob:    GET   /repos/{owner}/{repo}/git/blobs/{sha}
      PostBlob:   POST  /repos/{owner}/{repo}/git/blobs    {content, encoding: "base64"}
      PostTree:   POST  /repos/{owner}/{repo}/git/trees    {tree}
      PostCommit: POST  /repos/{owner}/{repo}/git/commits  {message, tree, parents}
      PatchRef:   PATCH /repos/{owner}/{repo}/git/refs/heads/{branch}  {sha, force} */
  datatype Op =
    | GetRepo(owner: string, repo: string)
    | GetTree(owner: string, repo: string, branch: string)
    | GetRef(owner: string, repo: string, branch: string)
    | GetBlob(owner: string, repo: string, sha: string)
    | PostBlob(owner: string, repo: string, content: string)
    | PostTree(owner: string, repo: string, tree: seq<TreeEntry>)
    | PostCommit(owner: string, repo: string, message: string, treeSha: string, parents: seq<string>)
    | PatchRef(owner: string, repo: string, branch: string, sha: string, force: bool)

  /** One issued request: the bearer token in its Authorization header and what it asks. */
  datatype Call = Call(token: string, op: Op)

  /** A reply: a 2xx answer and the field the handler reads from its JSON, a
      non-2xx answer with its status and body text, or an exception (a
      rejected fetch, a body that is not JSON, a missing field dereferenced). */
  datatype Reply<+T> = Ok(value: T) | NotOk(status: nat, text: string) | Threw(message: string)

  /** The GitHub API as seen by one run: a reply is a function of the call and
      of its position in the run's trace (how many calls came before it).
      Since the handler is deterministic, any run against a server whose
      answers depend on the earlier calls is reproduced by such an oracle.
      `listing` answers tree reads (the `tree` array); `text` answers every
      other call (default_branch, object.sha, content or sha). */
  datatype Remote = Remote(
    text: (nat, Call) -> Reply<string>,
    listing: (nat, Call) -> Reply<seq<TreeEntry>>)

  /** A request builder bound to one credential (`ghSource`, `ghDest`). */
  datatype Session = Session(token: string) {
    function Sign(op: Op): (c: Call)
      ensures c.token == token && c.op == op
    {
      Call(token, op)
    }
  }

  datatype Response = Response(status: nat, success: bool, error: Option<Message>, logs: seq<Note>)

  /** What a run produces: the HTTP response and every call it issued, in order. */
  datatype Outcome = Outcome(response: Response, calls: seq<Call>)

  // ---------------------------------------------------------------------------
  // Messages
  // ---------------------------------------------------------------------------

  /** Every text the handler logs or answers as `error`, as a value; `Text`
      renders it exactly as the handler writes it. */
  datatype Message =
    | MissingFields | SourceRepoError | TreeError | DestRepoError | DestRefError
    | CreateTreeError | CommitError | UpdateError
    | ReadingSourceInfo | ReadingSourceTree | SourceTreeFailed | ReadingDestInfo
    | ReadingDestRef | DestRefFailed | TransferringBlobs | CreatingTree | TreeCreated
    | CreatingCommit | UpdatingBranch | BranchUpdated | RemixComplete
    | SourceInfoFailed(status: nat) | SourceBranchFound(branch: string) | FilesFound(count: nat)
    | DestInfoFailed(status: nat) | DestBranchFound(branch: string)
    | ReadWarning(path: string) | CreateWarning(path: string) | BlobsTransferred(count: nat)
    | TreeFailed(text: string) | CommitCreated(sha: string)
    | InternalError(message: string)
    | Exception(message: string)   // the `message` of a caught exception, as `error`

  /** A line of the handler's log. */
  type Note = LogEntry<Message>

  function Text(m: Message): string {
    match m
    case MissingFields => "Campos obrigatórios faltando"
    case SourceRepoError => "Não foi possível acessar o repo fonte"
    case TreeError => "Erro ao obter árvore"
    case DestRepoError => "Não foi possível acessar o repo destino"
    case DestRefError => "Erro ao obter ref destino"
    case CreateTreeError => "Erro ao criar árvore"
    case CommitError => "Erro ao criar commit"
    case UpdateError => "Erro ao atualizar branch"
    case ReadingSourceInfo => "Obtendo informações do repositório fonte..."
    case ReadingSourceTree => "Baixando árvore de arquivos do fonte..."
    case SourceTreeFailed => "Erro ao obter árvore de arquivos"
    case ReadingDestInfo => "Obtendo informações do repositório destino..."
    case ReadingDestRef => "Obtendo referência do branch destino..."
    case DestRefFailed => "Erro ao obter ref do destino"
    case TransferringBlobs => "Transferindo blobs dos arquivos..."
    case CreatingTree => "Criando nova árvore de arquivos..."
    case TreeCreated => "Árvore criada!"
    case CreatingCommit => "Criando commit..."
    case UpdatingBranch => "Atualizando branch..."
    case BranchUpdated => "Branch atualizado com force push!"
    case RemixComplete => "Remix completo! ✅"
    case SourceInfoFailed(status) => "Erro ao acessar repo fonte: " + Decimal(status)
    case SourceBranchFound(branch) => "Branch fonte: " + branch
    case FilesFound(n) => Decimal(n) + " arquivos encontrados"
    case DestInfoFailed(status) => "Erro ao acessar repo destino: " + Decimal(status)
    case DestBranchFound(branch) => "Branch destino: " + branch
    case ReadWarning(path) => "Aviso: não foi possível ler " + path
    case CreateWarning(path) => "Aviso: não foi possível criar blob para " + path
    case BlobsTransferred(n) => Decimal(n) + " blobs transferidos"
    case TreeFailed(text) => "Erro ao criar árvore: " + text
    case CommitCreated(sha) => "Commit criado: " + ShortSha(sha)
    case InternalError(message) => "Erro interno: " + message
    case Exception(message) => message
  }

  /** `sha.substring(0, 7)`. */
  function ShortSha(sha: string): (s: string)
    ensures |s| == if |sha| < 7 then |sha| else 7
    ensures s <= sha
  {
    if |sha| <= 7 then sha else sha[..7]
  }

  function CommitMessage(req: Request): string {
    "remix: conteúdo clonado de " + req.sourceOwner + "/" + req.sourceRepo
  }

  // ---------------------------------------------------------------------------
  // Input checks and credentials
  // ---------------------------------------------------------------------------

  /** JavaScript's `preferred || fallback` on strings. */
  function Or(preferred: string, fallback: string): (r: string)
    ensures r == preferred || r == fallback
    ensures r == "" <==> preferred == "" && fallback == ""
    ensures preferred != "" ==> r == preferred
  {
    if preferred != "" then preferred else fallback
  }

  function SourceToken(req: Request): string { Or(req.sourceToken, req.token) }
  function DestToken(req: Request): string { Or(req.destToken, req.token) }

  predicate HasRequiredFields(req: Request) {
    && req.sourceOwner != "" && req.sourceRepo != ""
    && req.destOwner != "" && req.destRepo != ""
    && SourceToken(req) != "" && DestToken(req) != ""
  }

  /** `tree.filter(item => item.type === "blob")`. */
  function Blobs(tree: seq<TreeEntry>): (files: seq<TreeEntry>)
    ensures forall i :: 0 <= i < |files| ==> files[i].kind == "blob"
    ensures forall e :: e in files <==> e in tree && e.kind == "blob"
    decreases |tree|
  {
    if tree == [] then []
    else if Last(tree).kind == "blob" then Blobs(tree[..|tree| - 1]) + [Last(tree)]
    else Blobs(tree[..|tree| - 1])
  }

  /** The filter keeps the entries of a concatenation part by part, in order. */
  lemma {:induction false} BlobsAppend(a: seq<TreeEntry>, b: seq<TreeEntry>)
    ensures Blobs(a + b) == Blobs(a) + Blobs(b)
    decreases |b|
  {
    if b == [] {
      assert a + b == a;
    } else {
      var front := b[..|b| - 1];
      assert (a + b)[..|a + b| - 1] == a + front;
      assert Last(a + b) == Last(b);
      BlobsAppend(a, front);
    }
  }

  /** A single entry is kept exactly when its type is "blob". */
  lemma BlobsOne(e: TreeEntry)
    ensures Blobs([e]) == if e.kind == "blob" then [e] else []
  {
    assert [e][..0] == [];
  }

  // ---------------------------------------------------------------------------
  // The run, step by step
  // ---------------------------------------------------------------------------

  /** The handler's inputs once they are checked: the request and the remote.
      Its two sessions sign with the effective source and destination tokens. */
  datatype Context = Context(req: Request, remote: Remote) {
    function Source(): Session { Session(SourceToken(req)) }
    function Dest(): Session { Session(DestToken(req)) }
  }

  /** The state threaded through a run: the log so far and the calls so far. */
  datatype Run = Run(logs: seq<Note>, calls: seq<Call>) {
    function Log(message: Message, kind: Kind): Run {
      Run(logs + [LogEntry(message, kind)], calls)
    }
    function Issue(c: Call): Run {
      Run(logs, calls + [c])
    }
  }

  /** The `catch` block: one error entry, status 500, the exception's message. */
  function Caught(logs: seq<Note>, message: string): (r: Response)
    ensures r.logs == logs + [LogEntry(InternalError(message), Error)]
    ensures r.status == 500 && !r.success && r.error == Some(Exception(message))
  {
    Response(500, false, Some(Exception(message)), logs + [LogEntry(InternalError(message), Error)])
  }

  function Crash(run: Run, message: string): Outcome {
    Outcome(Caught(run.logs, message), run.calls)
  }

  function Fail(run: Run, status: nat, error: Message): Outcome {
    Outcome(Response(status, false, Some(error), run.logs), run.calls)
  }
  // ---------------------------------------------------------------------------
  // The shape of one call
  // ---------------------------------------------------------------------------

  /** Where one call left the run: stopped with `result`, or going on from
      `run` with the value the reply carried. */
  datatype Flow<H, T> = Halt(result: H) | Next(run: Run, value: T)

  /** The shape shared by steps 1-4 and 6-8: log `before`, issue `call`; an
      exception goes to the catch-all, a refusal is logged as an error (its
      text built from the status and body by `refusal`) and answered with
      `status` and `error`, and a success goes on with the reply's value. */
  function Attempt<T>(run: Run, before: Message, call: Call, reply: Reply<T>,
                      refusal: (nat, string) -> Message, status: nat, error: Message): Flow<Outcome, T>
  {
    var run1 := run.Log(before, Info).Issue(call);
    match reply
    case Threw(m) => Halt(Crash(run1, m))
    case NotOk(code, text) => Halt(Fail(run1.Log(refusal(code, text), Error), status, error))
    case Ok(v) => Next(run1, v)
  }

  /** The error each fatal step logs for a refusal, from its status and body. */
  const SourceRepoRefusal: (nat, string) -> Message := (code: nat, _) => SourceInfoFailed(code)
  const SourceTreeRefusal: (nat, string) -> Message := (_, _) => SourceTreeFailed
  const DestRepoRefusal: (nat, string) -> Message := (code: nat, _) => DestInfoFailed(code)
  const DestRefRefusal: (nat, string) -> Message := (_, _) => DestRefFailed
  const TreeRefusal: (nat, string) -> Message := (_, text) => TreeFailed(text)
  const CommitRefusal: (nat, string) -> Message := (_, _) => CommitError
  const BranchRefusal: (nat, string) -> Message := (_, _) => UpdateError

  /** The shape of the two calls the loop makes per file: issue `call`; an
      exception leaves the loop, a refusal logs `warning` and skips the file,
      and a success goes on with the reply's value. */
  function Skippable(run: Run, call: Call, reply: Reply<string>, items: seq<TreeEntry>, warning: Message)
    : Flow<Copy, string>
  {
    var run1 := run.Issue(call);
    match reply
    case Threw(m) => Halt(Crashed(run1, m))
    case NotOk(_, _) => Halt(Copying(items, run1.Log(warning, Warning)))
    case Ok(v) => Next(run1, v)
  }

  // ---------------------------------------------------------------------------
  // The eight steps
  // ---------------------------------------------------------------------------

  /** The step a run is about to take, with what the earlier steps read. */
  datatype Phase =
    | SourceRepo                                                         // 1
    | SourceTree(sourceBranch: string)                                   // 2
    | DestRepo(files: seq<TreeEntry>)                                    // 3
    | DestRef(files: seq<TreeEntry>, destBranch: string)                 // 4
    | CopyFiles(files: seq<TreeEntry>, destBranch: string, baseSha: string)    // 5
    | NewTree(items: seq<TreeEntry>, destBranch: string, baseSha: string)      // 6
    | NewCommit(treeSha: string, destBranch: string, baseSha: string)          // 7
    | MoveBranch(commitSha: string, destBranch: string)                        // 8

  /** Step 1: the source repository's default branch. A refusal is fatal with
      status 400, as in steps 2-4. */
  function SourceRepoStep(ctx: Context, run: Run): Outcome
  {
    var call := SourceRepoCall(ctx);
    match Attempt(run, ReadingSourceInfo, call, ctx.remote.text(|run.calls|, call), SourceRepoRefusal, 400, SourceRepoError)
    case Halt(o) => o
    case Next(run1, sourceBranch) =>
      SourceTreeStep(ctx, run1.Log(SourceBranchFound(sourceBranch), Success), sourceBranch)
  }

  /** Step 2: the recursive listing of the source branch, kept to its blobs. */
  function SourceTreeStep(ctx: Context, run: Run, sourceBranch: string): Outcome
  {
    var call := SourceTreeCall(ctx, sourceBranch);
    match Attempt(run, ReadingSourceTree, call, ctx.remote.listing(|run.calls|, call), SourceTreeRefusal, 400, TreeError)
    case Halt(o) => o
    case Next(run1, tree) =>
      DestRepoStep(ctx, run1.Log(FilesFound(|Blobs(tree)|), Success), Blobs(tree))
  }

  /** Step 3: the destination repository's default branch. */
  function DestRepoStep(ctx: Context, run: Run, files: seq<TreeEntry>): Outcome
  {
    var call := DestRepoCall(ctx);
    match Attempt(run, ReadingDestInfo, call, ctx.remote.text(|run.calls|, call), DestRepoRefusal, 400, DestRepoError)
    case Halt(o) => o
    case Next(run1, destBranch) =>
      DestRefStep(ctx, run1.Log(DestBranchFound(destBranch), Success), files, destBranch)
  }

  /** Step 4: the commit the destination branch points to. */
  function DestRefStep(ctx: Context, run: Run, files: seq<TreeEntry>, destBranch: string): Outcome
  {
    var call := DestRefCall(ctx, destBranch);
    match Attempt(run, ReadingDestRef, call, ctx.remote.text(|run.calls|, call), DestRefRefusal, 400, DestRefError)
    case Halt(o) => o
    case Next(run1, baseSha) => CopyStep(ctx, run1, files, destBranch, baseSha)
  }

  /** Step 5: copy the files; an exception inside the loop goes to the
      catch-all, otherwise the count of copied files is logged. */
  function CopyStep(ctx: Context, run: Run, files: seq<TreeEntry>, destBranch: string, baseSha: string): Outcome
  {
    match CopyFrom(ctx, files, [], run.Log(TransferringBlobs, Info))
    case Crashed(copied, m) => Crash(copied, m)
    case Copying(items, copied) =>
      TreeStep(ctx, copied.Log(BlobsTransferred(|items|), Success), items, destBranch, baseSha)
  }

  /** Step 6: a new tree holding exactly the copied files, not based on any
      earlier tree. A refusal is fatal with status 500, as in steps 7 and 8. */
  function TreeStep(ctx: Context, run: Run, items: seq<TreeEntry>, destBranch: string, baseSha: string): Outcome
  {
    var call := NewTreeCall(ctx, items);
    match Attempt(run, CreatingTree, call, ctx.remote.text(|run.calls|, call), TreeRefusal, 500, CreateTreeError)
    case Halt(o) => o
    case Next(run1, treeSha) =>
      CommitStep(ctx, run1.Log(TreeCreated, Success), treeSha, destBranch, baseSha)
  }

  /** Step 7: a commit of the new tree whose only parent is the destination
      tip read in step 4. */
  function CommitStep(ctx: Context, run: Run, treeSha: string, destBranch: string, baseSha: string): Outcome
  {
    var call := NewCommitCall(ctx, treeSha, baseSha);
    match Attempt(run, CreatingCommit, call, ctx.remote.text(|run.calls|, call), CommitRefusal, 500, CommitError)
    case Halt(o) => o
    case Next(run1, commitSha) =>
      BranchStep(ctx, run1.Log(CommitCreated(commitSha), Success), commitSha, destBranch)
  }

  /** Step 8: force-move the destination branch to the new commit; the only
      way to a successful response. */
  function BranchStep(ctx: Context, run: Run, commitSha: string, destBranch: string): Outcome
  {
    var call := MoveBranchCall(ctx, commitSha, destBranch);
    match Attempt(run, UpdatingBranch, call, ctx.remote.text(|run.calls|, call), BranchRefusal, 500, UpdateError)
    case Halt(o) => o
    case Next(run1, _) =>
      var run2 := run1.Log(BranchUpdated, Success).Log(RemixComplete, Success);
      Outcome(Response(200, true, None, run2.logs), run2.calls)
  }

  // ---------------------------------------------------------------------------
  // Step 5: the copy loop
  // ---------------------------------------------------------------------------

  /** The state of the copy loop: the tree items built so far, or the run at
      the point an exception left the loop. */
  datatype Copy = Copying(items: seq<TreeEntry>, run: Run) | Crashed(run: Run, message: string)

  /** The tree item for `file` once its content is a blob `sha` of the destination. */
  function Repointed(file: TreeEntry, sha: string): TreeEntry {
    TreeEntry(file.path, file.mode, "blob", sha)
  }

  /** One iteration: read the blob through the source session, create it
      through the destination session, or warn and skip the file. */
  function CopyOne(ctx: Context, file: TreeEntry, items: seq<TreeEntry>, run: Run): Copy {
    var read := ReadCall(ctx, file);
    match Skippable(run, read, ctx.remote.text(|run.calls|, read), items, ReadWarning(file.path))
    case Halt(c) => c
    case Next(run1, content) =>
      var create := CreateCall(ctx, content);
      match Skippable(run1, create, ctx.remote.text(|run1.calls|, create), items, CreateWarning(file.path))
      case Halt(c) => c
      case Next(run2, sha) => Copying(items + [Repointed(file, sha)], run2)
  }

  /** The loop over `files`, in order, from the items and the run so far. */
  function CopyFrom(ctx: Context, files: seq<TreeEntry>, items: seq<TreeEntry>, run: Run): Copy
    decreases |files|
  {
    if files == [] then Copying(items, run)
    else
      match CopyOne(ctx, files[0], items, run)
      case Crashed(crashed, m) => Crashed(crashed, m)
      case Copying(items1, run1) => CopyFrom(ctx, files[1..], items1, run1)
  }

  /** Step 1's call: the source repository, through the source session. */
  function SourceRepoCall(ctx: Context): Call {
    ctx.Source().Sign(GetRepo(ctx.req.sourceOwner, ctx.req.sourceRepo))
  }

  /** Step 2's call: the recursive listing of `sourceBranch`, through the source session. */
  function SourceTreeCall(ctx: Context, sourceBranch: string): Call {
    ctx.Source().Sign(GetTree(ctx.req.sourceOwner, ctx.req.sourceRepo, sourceBranch))
  }

  /** Step 3's call: the destination repository, through the destination session. */
  function DestRepoCall(ctx: Context): Call {
    ctx.Dest().Sign(GetRepo(ctx.req.destOwner, ctx.req.destRepo))
  }

  /** Step 4's call: the ref of `destBranch`, through the destination session. */
  function DestRefCall(ctx: Context, destBranch: string): Call {
    ctx.Dest().Sign(GetRef(ctx.req.destOwner, ctx.req.destRepo, destBranch))
  }

  /** Step 6's call: a new tree of `items`, through the destination session. */
  function NewTreeCall(ctx: Context, items: seq<TreeEntry>): Call {
    ctx.Dest().Sign(PostTree(ctx.req.destOwner, ctx.req.destRepo, items))
  }

  /** Step 7's call: a commit of `treeSha` on the single parent `baseSha`. */
  function NewCommitCall(ctx: Context, treeSha: string, baseSha: string): Call {
    ctx.Dest().Sign(PostCommit(ctx.req.destOwner, ctx.req.destRepo, CommitMessage(ctx.req), treeSha, [baseSha]))
  }

  /** Step 8's call: force `destBranch` to `commitSha`. */
  function MoveBranchCall(ctx: Context, commitSha: string, destBranch: string): Call {
    ctx.Dest().Sign(PatchRef(ctx.req.destOwner, ctx.req.destRepo, destBranch, commitSha, true))
  }

  /** The read of `file`'s blob, through the source session. */
  function ReadCall(ctx: Context, file: TreeEntry): Call {
    ctx.Source().Sign(GetBlob(ctx.req.sourceOwner, ctx.req.sourceRepo, file.sha))
  }

  /** The creation of a blob holding `content`, through the destination session. */
  function CreateCall(ctx: Context, content: string): Call {
    ctx.Dest().Sign(PostBlob(ctx.req.destOwner, ctx.req.destRepo, content))
  }

  /** What became of one file in the copy loop: copied into the destination
      blob `sha`, skipped because its read was refused, or skipped because
      the creation of its copy was refused. */
  datatype Fate = Kept(sha: string) | Unread | Uncreated

  /** The fates of the files a trace went through, in order, and the position
      of the first call after theirs. */
  datatype Walk = Walk(fates: seq<Fate>, end: nat)

  function Then(fate: Fate, w: Walk): Walk {
    Walk([fate] + w.fates, w.end)
  }

  /** Where one file's calls leave the replay: the file's fate and the
      position of the next call. */
  datatype Stride = Stride(fate: Fate, next: nat)

  /** The calls for `file` at position `pos`: its blob read and, when the
      read answered, the creation of a blob from the content it returned;
      the replies decide the file's fate. None when the calls there are not
      these, or one of them threw. */
  ghost function Advance(ctx: Context, calls: seq<Call>, pos: nat, file: TreeEntry): (s: Option<Stride>)
    ensures s.Some? ==> pos < s.value.next <= |calls| && s.value.next <= pos + 2
  {
    if pos >= |calls| || calls[pos] != ReadCall(ctx, file) then None
    else
      match TextReply(ctx, calls, pos)
      case Threw(_) => None
      case NotOk(_, _) => Some(Stride(Unread, pos + 1))
      case Ok(content) =>
        if pos + 1 >= |calls| || calls[pos + 1] != CreateCall(ctx, content) then None
        else
          match TextReply(ctx, calls, pos + 1)
          case Threw(_) => None
          case NotOk(_, _) => Some(Stride(Uncreated, pos + 2))
          case Ok(sha) => Some(Stride(Kept(sha), pos + 2))
  }

  /** The copy loop read back from `calls`, from position `pos`: the files in
      turn, each by its own calls, until the files run out or the calls at
      that point are not the next file's. Each fate is read off the
      positions of that file's own calls, so two files with the same sha are
      told apart. */
  ghost function Replay(ctx: Context, calls: seq<Call>, pos: nat, files: seq<TreeEntry>): (w: Walk)
    ensures |w.fates| <= |files|
    ensures pos <= w.end && (pos <= |calls| ==> w.end <= |calls|)
    decreases |files|
  {
    if files == [] then Walk([], pos)
    else
      match Advance(ctx, calls, pos, files[0])
      case None => Walk([], pos)
      case Some(s) => Then(s.fate, Replay(ctx, calls, s.next, files[1..]))
  }

  /** The tree items a walk stands for: the kept files and only those, in
      order, each re-pointed at the blob created from its content. */
  function KeptItems(files: seq<TreeEntry>, fates: seq<Fate>): (items: seq<TreeEntry>)
    requires |fates| <= |files|
    ensures |items| <= |fates|
    ensures forall i :: 0 <= i < |items| ==> items[i].kind == "blob"
    decreases |fates|
  {
    if fates == [] then []
    else (if fates[0].Kept? then [Repointed(files[0], fates[0].sha)] else []) + KeptItems(files[1..], fates[1..])
  }

  /** The warnings a walk stands for: one per skipped file, naming the file
      and the step that was refused. Kept files and warnings together
      account for every file once. */
  function SkipNotes(files: seq<TreeEntry>, fates: seq<Fate>): (notes: seq<Note>)
    requires |fates| <= |files|
    ensures forall i :: 0 <= i < |notes| ==> notes[i].kind == Warning
    ensures |KeptItems(files, fates)| + |notes| == |fates|
    decreases |fates|
  {
    if fates == [] then []
    else
      (match fates[0]
       case Kept(_) => []
       case Unread => [LogEntry(ReadWarning(files[0].path), Warning)]
       case Uncreated => [LogEntry(CreateWarning(files[0].path), Warning)])
      + SkipNotes(files[1..], fates[1..])
  }

  /** The reference definition of the handler. A body that cannot be read goes
      to the catch-all and missing fields stop the run before any call;
      `HandleSettles` states what a run with all fields satisfies. */
  function Handle(body: Body, remote: Remote): (o: Outcome)
    ensures body.Unparsable? ==> o == Outcome(Caught([], body.message), [])
    ensures body.Parsed? && !HasRequiredFields(body.request) ==>
      o == Outcome(Response(400, false, Some(MissingFields), []), [])
  {
    match body
    case Unparsable(message) => Crash(Run([], []), message)
    case Parsed(req) =>
      if !HasRequiredFields(req) then Fail(Run([], []), 400, MissingFields)
      else SourceRepoStep(Context(req, remote), Run([], []))
  }

  // ---------------------------------------------------------------------------
  // What the trace of a run satisfies
  // ---------------------------------------------------------------------------

  datatype Verdict = Passed | Refused(status: nat) | Raised(message: string)

  function Judge<T>(r: Reply<T>): Verdict {
    match r
    case Ok(_) => Passed
    case NotOk(status, _) => Refused(status)
    case Threw(m) => Raised(m)
  }

  /** The reply the remote gave to the `j`-th call of a trace. */
  function TextReply(ctx: Context, calls: seq<Call>, j: nat): Reply<string>
    requires j < |calls|
  {
    ctx.remote.text(j, calls[j])
  }

  function ListingReply(ctx: Context, calls: seq<Call>, j: nat): Reply<seq<TreeEntry>>
    requires j < |calls|
  {
    ctx.remote.listing(j, calls[j])
  }

  function VerdictAt(ctx: Context, calls: seq<Call>, k: nat): Verdict
    requires k < |calls|
  {
    if calls[k].op.GetTree? then Judge(ListingReply(ctx, calls, k)) else Judge(TextReply(ctx, calls, k))
  }

  /** A step whose failure ends the run (all but the per-file reads and creates). */
  predicate Fatal(op: Op) {
    !op.GetBlob? && !op.PostBlob?
  }

  function FatalStatus(op: Op): nat {
    if op.PostTree? || op.PostCommit? || op.PatchRef? then 500 else 400
  }

  /** The `error` of the response when the call `op`, at position `k`, is refused. */
  function FatalError(op: Op, k: nat): Message
    requires Fatal(op)
  {
    if op.GetRepo? then (if k == 0 then SourceRepoError else DestRepoError)
    else if op.GetTree? then TreeError
    else if op.GetRef? then DestRefError
    else if op.PostTree? then CreateTreeError
    else if op.PostCommit? then CommitError
    else UpdateError
  }

  /** The `k`-th call goes through the session that owns its repository: the
      first metadata read, the tree read and the blob reads through the source
      session, on the source repository; every other call through the
      destination session, on the destination repository. */
  ghost predicate Signed(req: Request, k: nat, c: Call) {
    if c.op.GetTree? || c.op.GetBlob? || (c.op.GetRepo? && k == 0) then
      c.token == SourceToken(req) && c.op.owner == req.sourceOwner && c.op.repo == req.sourceRepo
    else
      c.token == DestToken(req) && c.op.owner == req.destOwner && c.op.repo == req.destRepo
  }

  /** The `k`-th call is the one the protocol prescribes at that point, given
      the replies to the calls before it. */
  ghost predicate Prescribed(ctx: Context, calls: seq<Call>, k: nat)
    requires k < |calls|
  {
    match calls[k].op
    case GetRepo(_, _) => k == 0 || k == 2
    case GetTree(_, _, branch) => k == 1 && calls[0].op.GetRepo? && TextReply(ctx, calls, 0) == Ok(branch)
    case GetRef(_, _, branch) => k == 3 && calls[2].op.GetRepo? && TextReply(ctx, calls, 2) == Ok(branch)
    case GetBlob(_, _, _) => Due(ctx, calls, k)
    case PostBlob(_, _, content) =>
      4 < k && calls[k - 1].op.GetBlob? && TextReply(ctx, calls, k - 1) == Ok(content)
    case PostTree(_, _, tree) => 4 <= k && Inventoried(ctx, calls[..k], tree)
    case PostCommit(_, _, message, treeSha, parents) =>
      && 4 < k
      && message == CommitMessage(ctx.req)
      && calls[k - 1].op.PostTree? && TextReply(ctx, calls, k - 1) == Ok(treeSha)
      && calls[3].op.GetRef? && TextReply(ctx, calls, 3).Ok?
      && parents == [TextReply(ctx, calls, 3).value]
    case PatchRef(_, _, branch, sha, force) =>
      && 4 < k
      && force
      && calls[k - 1].op.PostCommit? && TextReply(ctx, calls, k - 1) == Ok(sha)
      && calls[2].op.GetRepo? && TextReply(ctx, calls, 2) == Ok(branch)
  }

  ghost predicate Proper(ctx: Context, calls: seq<Call>, k: nat)
    requires k < |calls|
  {
    Signed(ctx.req, k, calls[k]) && Prescribed(ctx, calls, k)
  }

  /** The run went on after the `k`-th call: it threw nothing, it was not the
      branch update, and if it was a fatal step it succeeded. */
  ghost predicate Continued(ctx: Context, calls: seq<Call>, k: nat)
    requires k < |calls|
  {
    var v := VerdictAt(ctx, calls, k);
    !v.Raised? && !calls[k].op.PatchRef? && (Fatal(calls[k].op) ==> v == Passed)
  }

  /** The calls in [from, to) are proper and the run went on after each. */
  ghost predicate Steps(ctx: Context, calls: seq<Call>, from: nat, to: nat)
    requires to <= |calls|
  {
    forall k :: from <= k < to ==> Proper(ctx, calls, k) && Continued(ctx, calls, k)
  }

  /** How the response follows from the reply to the last call: an exception
      gives the catch-all 500 answer; a refused fatal step gives that step's
      status and error, with an error entry last; only a successful branch
      update gives success, with two success entries last. */
  ghost predicate Ended(ctx: Context, o: Outcome)
    requires o.calls != []
  {
    var n := |o.calls|;
    var op := o.calls[n - 1].op;
    var r := o.response;
    && r.logs != []
    && match VerdictAt(ctx, o.calls, n - 1)
       case Raised(m) => r == Caught(r.logs[..|r.logs| - 1], m)
       case Refused(_) =>
         && Fatal(op)
         && r == Response(FatalStatus(op), false, Some(FatalError(op, n - 1)), r.logs)
         && Last(r.logs).kind == Error
       case Passed =>
         && op.PatchRef?
         && r == Response(200, true, None, r.logs)
         && |r.logs| >= 2 && r.logs[|r.logs| - 2].kind == Success && Last(r.logs).kind == Success
  }

  /** The calls from position `from` on are proper, all but the last let the
      run go on, and the last one decides the response. */
  ghost predicate Settled(ctx: Context, from: nat, o: Outcome) {
    && from < |o.calls|
    && Steps(ctx, o.calls, from, |o.calls| - 1)
    && Proper(ctx, o.calls, |o.calls| - 1)
    && Ended(ctx, o)
  }

  /** A call of the copy loop. */
  ghost predicate Copied(ctx: Context, calls: seq<Call>, k: nat)
    requires k < |calls|
  {
    (calls[k].op.GetBlob? || calls[k].op.PostBlob?) && Proper(ctx, calls, k)
  }

  /** The `k`-th call reads the blob of the file the copy loop is due to go
      through next: the calls since step 4 went through the blobs listed by
      step 2 that come before it, and no further. */
  ghost predicate Due(ctx: Context, calls: seq<Call>, k: nat)
    requires k < |calls|
  {
    && 4 <= k && calls[k].op.GetBlob?
    && calls[1].op.GetTree? && ListingReply(ctx, calls, 1).Ok?
    && var files := Blobs(ListingReply(ctx, calls, 1).value);
       var w := Replay(ctx, calls[..k], 4, files);
       && w.end == k && |w.fates| < |files|
       && calls[k].op.sha == files[|w.fates|].sha
  }

  /** The calls since step 4 went through the first `n` of the listed blobs
      `all`, and end right after them. */
  ghost predicate Looping(ctx: Context, calls: seq<Call>, all: seq<TreeEntry>, n: nat) {
    && |calls| >= 4 && Listed(ctx, calls, all)
    && var w := Replay(ctx, calls, 4, all);
       |w.fates| == n && w.end == |calls|
  }

  /** What a stretch of the copy loop from `start` guarantees: the trace and
      the log only grow, it logs warnings only, its calls are proper blob reads
      and creates, and it goes on after each call but the one that threw, if any. */
  ghost predicate Copies(ctx: Context, start: Run, c: Copy) {
    && start.calls <= c.run.calls
    && Noted(start.logs, c.run.logs)
    && (forall k :: |start.calls| <= k < |c.run.calls| ==> Copied(ctx, c.run.calls, k))
    && (c.Copying? ==> Steps(ctx, c.run.calls, |start.calls|, |c.run.calls|))
    && (c.Crashed? ==>
          && |start.calls| < |c.run.calls|
          && Steps(ctx, c.run.calls, |start.calls|, |c.run.calls| - 1)
          && VerdictAt(ctx, c.run.calls, |c.run.calls| - 1) == Raised(c.message))
  }

  /** What the rest of a run guarantees from `run` on: the trace and the log
      only grow, and the run ends as `Settled` says. */
  ghost predicate Publishes(ctx: Context, run: Run, o: Outcome) {
    && run.calls <= o.calls
    && run.logs <= o.response.logs
    && Settled(ctx, |run.calls|, o)
    && Warnings(o.response.logs) == Warnings(run.logs) + LoopNotes(ctx, o.calls, |run.calls|)
  }

  /** The warnings the copy loop of `calls` still has to log from position
      `from` on: the skip notes of the loop read back from the calls after
      step 4, over the blobs step 2 listed, while the loop has not begun;
      none once it is past. */
  ghost function LoopNotes(ctx: Context, calls: seq<Call>, from: nat): (notes: seq<Note>)
    ensures forall i :: 0 <= i < |notes| ==> notes[i].kind == Warning
  {
    if from <= 4 && |calls| >= 2 && calls[1].op.GetTree? && ListingReply(ctx, calls, 1).Ok? then
      var files := Blobs(ListingReply(ctx, calls, 1).value);
      SkipNotes(files, Replay(ctx, calls, 4, files).fates)
    else []
  }

  /** `after` extends `before` with no warning. */
  predicate Unwarned(before: seq<Note>, after: seq<Note>) {
    before <= after && forall i :: |before| <= i < |after| ==> after[i].kind != Warning
  }

  /** What the steps before `phase` established about the trace: the values
      the phase carries are the replies to the calls that read them. */
  ghost predicate Reached(ctx: Context, run: Run, phase: Phase) {
    var calls := run.calls;
    match phase
    case SourceRepo => calls == []
    case SourceTree(sourceBranch) =>
      |calls| == 1 && calls[0].op.GetRepo? && TextReply(ctx, calls, 0) == Ok(sourceBranch)
    case DestRepo(files) => |calls| == 2 && Listed(ctx, calls, files)
    case DestRef(files, destBranch) =>
      && |calls| == 3 && Listed(ctx, calls, files)
      && calls[2].op.GetRepo? && TextReply(ctx, calls, 2) == Ok(destBranch)
    case CopyFiles(files, destBranch, baseSha) =>
      |calls| == 4 && Listed(ctx, calls, files) && ReadsDone(ctx, calls, destBranch, baseSha)
    case NewTree(items, destBranch, baseSha) =>
      ReadsDone(ctx, calls, destBranch, baseSha) && Inventoried(ctx, calls, items)
    case NewCommit(treeSha, destBranch, baseSha) =>
      && ReadsDone(ctx, calls, destBranch, baseSha)
      && Last(calls).op.PostTree? && TextReply(ctx, calls, |calls| - 1) == Ok(treeSha)
    case MoveBranch(commitSha, destBranch) =>
      && |calls| > 4 && calls[2].op.GetRepo? && TextReply(ctx, calls, 2) == Ok(destBranch)
      && Last(calls).op.PostCommit? && TextReply(ctx, calls, |calls| - 1) == Ok(commitSha)
  }

  /** Steps 3 and 4 of `calls` gave the destination branch and its tip. */
  ghost predicate ReadsDone(ctx: Context, calls: seq<Call>, destBranch: string, baseSha: string) {
    && |calls| >= 4
    && calls[2].op.GetRepo? && TextReply(ctx, calls, 2) == Ok(destBranch)
    && calls[3].op.GetRef? && TextReply(ctx, calls, 3) == Ok(baseSha)
  }

  /** Step 2 of `calls` listed the source tree, and `files` are its blobs. */
  ghost predicate Listed(ctx: Context, calls: seq<Call>, files: seq<TreeEntry>) {
    && |calls| >= 2
    && calls[1].op.GetTree? && ListingReply(ctx, calls, 1).Ok?
    && files == Blobs(ListingReply(ctx, calls, 1).value)
  }

  /** The calls since step 4 went through every blob listed by step 2 and
      end with `calls`, and `items` are the files they kept, in order, each
      re-pointed at the blob its own create call returned. */
  ghost predicate Inventoried(ctx: Context, calls: seq<Call>, items: seq<TreeEntry>) {
    && |calls| >= 4
    && calls[1].op.GetTree? && ListingReply(ctx, calls, 1).Ok?
    && var files := Blobs(ListingReply(ctx, calls, 1).value);
       var w := Replay(ctx, calls, 4, files);
       && |w.fates| == |files| && w.end == |calls|
       && items == KeptItems(files, w.fates)
  }

  /** `after` extends `before` with warnings only. */
  predicate Noted(before: seq<Note>, after: seq<Note>) {
    before <= after && forall i :: |before| <= i < |after| ==> after[i].kind == Warning
  }

  // ---------------------------------------------------------------------------
  // Composing the steps
  // ---------------------------------------------------------------------------

  /** A fatal step whose call is the prescribed one either settles the run at
      that call, with the step's own status and error, or goes on after it. */
  lemma AttemptSettles<T>(ctx: Context, run: Run, before: Message, call: Call, reply: Reply<T>,
                          refusal: (nat, string) -> Message, status: nat, error: Message)
    requires Proper(ctx, run.calls + [call], |run.calls|)
    requires Judge(reply) == VerdictAt(ctx, run.calls + [call], |run.calls|)
    requires Fatal(call.op) && status == FatalStatus(call.op) && error == FatalError(call.op, |run.calls|)
    ensures match Attempt(run, before, call, reply, refusal, status, error)
      case Halt(o) => o.calls == run.calls + [call] && Publishes(ctx, run, o)
      case Next(run1, v) =>
        && run1 == run.Log(before, Info).Issue(call) && reply == Ok(v)
        && (!call.op.PatchRef? ==> Steps(ctx, run1.calls, |run.calls|, |run1.calls|))
  {
    match reply
    case Threw(m) =>
      CrashPublishes(ctx, run, before, call, m);
    case NotOk(code, text) =>
      FailPublishes(ctx, run, before, call, refusal(code, text), status, error);
    case Ok(_) =>
  }

  /** A proper call that threw publishes the catch-all answer. */
  lemma CrashPublishes(ctx: Context, run: Run, before: Message, call: Call, m: string)
    requires Proper(ctx, run.calls + [call], |run.calls|) && Fatal(call.op)
    requires VerdictAt(ctx, run.calls + [call], |run.calls|) == Raised(m)
    ensures Publishes(ctx, run, Crash(run.Log(before, Info).Issue(call), m))
  {
    var run1 := run.Log(before, Info).Issue(call);
    CrashSettles(ctx, run1, m, |run.calls|);
    FatalQuiet(ctx, run.calls, call);
    UnwarnedWarnings(run.logs, Crash(run1, m).response.logs);
  }

  /** A proper fatal call that was refused and logged as an error publishes
      that step's status and error. */
  lemma FailPublishes(ctx: Context, run: Run, before: Message, call: Call, note: Message,
                      status: nat, error: Message)
    requires Proper(ctx, run.calls + [call], |run.calls|)
    requires VerdictAt(ctx, run.calls + [call], |run.calls|).Refused?
    requires Fatal(call.op) && status == FatalStatus(call.op) && error == FatalError(call.op, |run.calls|)
    ensures Publishes(ctx, run, Fail(run.Log(before, Info).Issue(call).Log(note, Error), status, error))
  {
    var run2 := run.Log(before, Info).Issue(call).Log(note, Error);
    FailSettles(ctx, run2, status, error, |run.calls|);
    FatalQuiet(ctx, run.calls, call);
    UnwarnedWarnings(run.logs, run2.logs);
  }

  /** A fatal step that succeeded, followed by a settled rest of the run
      from `next`, settles the run from before the step. */
  lemma AttemptContinues<T>(ctx: Context, run: Run, before: Message, call: Call, reply: Reply<T>,
                            refusal: (nat, string) -> Message, status: nat, error: Message,
                            next: Run, o: Outcome)
    requires Proper(ctx, run.calls + [call], |run.calls|)
    requires Judge(reply) == VerdictAt(ctx, run.calls + [call], |run.calls|)
    requires Fatal(call.op) && !call.op.PatchRef?
    requires status == FatalStatus(call.op) && error == FatalError(call.op, |run.calls|)
    requires reply.Ok? && next.calls == run.calls + [call] && Unwarned(run.logs, next.logs)
    requires Publishes(ctx, next, o)
    requires LoopNotes(ctx, o.calls, |next.calls|) == LoopNotes(ctx, o.calls, |run.calls|)
    ensures Publishes(ctx, run, o)
  {
    AttemptSettles(ctx, run, before, call, reply, refusal, status, error);
    UnwarnedWarnings(run.logs, next.logs);
    PublishesPrepend(ctx, run, next, o);
  }

  /** A step that went on logged an info and a success entry, no warning. */
  lemma StepUnwarned(run: Run, before: Message, call: Call, after: Message)
    ensures Unwarned(run.logs, run.Log(before, Info).Issue(call).Log(after, Success).logs)
  {
  }

  /** A tip read that went on logged an info entry only. */
  lemma ReadUnwarned(run: Run, before: Message, call: Call)
    ensures Unwarned(run.logs, run.Log(before, Info).Issue(call).logs)
  {
  }

  /** Past the loop, it has nothing left to log. */
  lemma LateNotes(ctx: Context, calls: seq<Call>, a: nat)
    requires a > 4
    ensures LoopNotes(ctx, calls, a) == []
  {
  }

  /** Before the loop has begun, the loop's notes are all still to come. */
  lemma EarlyNotes(ctx: Context, calls: seq<Call>, a: nat, b: nat)
    requires a <= 4 && b <= 4
    ensures LoopNotes(ctx, calls, a) == LoopNotes(ctx, calls, b)
  {
  }

  /** Log entries that are not warnings leave the warnings as they were. */
  lemma UnwarnedWarnings(before: seq<Note>, after: seq<Note>)
    requires Unwarned(before, after)
    ensures Warnings(after) == Warnings(before)
  {
    var tail := after[|before|..];
    assert after == before + tail;
    WarningsAppend(before, tail);
    WarningsNone(tail);
  }

  /** The loop's warnings framed by two entries that are not warnings. */
  lemma WarningsAcross(logs: seq<Note>, x: Note, notes: seq<Note>, y: Note)
    requires x.kind != Warning && y.kind != Warning
    requires forall i :: 0 <= i < |notes| ==> notes[i].kind == Warning
    ensures Warnings(logs + [x] + notes + [y]) == Warnings(logs) + notes
  {
    WarningsAppend(logs + [x] + notes, [y]);
    WarningsAppend(logs + [x], notes);
    WarningsAppend(logs, [x]);
    WarningsAll(notes);
    WarningsNone([x]);
    WarningsNone([y]);
  }

  /** A call that is not a blob read, made at or before position 4, leaves
      the loop nothing to log: the trace there holds no file's calls. */
  lemma FatalQuiet(ctx: Context, calls: seq<Call>, call: Call)
    requires !call.op.GetBlob?
    ensures LoopNotes(ctx, calls + [call], |calls|) == []
  {
    var c := calls + [call];
    if |calls| <= 4 && |c| >= 2 && c[1].op.GetTree? && ListingReply(ctx, c, 1).Ok? {
      var files := Blobs(ListingReply(ctx, c, 1).value);
      if files != [] {
        assert |calls| == 4 ==> c[4] == call && c[4] != ReadCall(ctx, files[0]);
        assert Advance(ctx, c, 4, files[0]).None?;
      }
      assert Replay(ctx, c, 4, files).fates == [];
    }
  }

  /** At the tree creation the loop has logged all it will: with four calls
      made, the source listed no blob. */
  lemma NewTreeQuiet(ctx: Context, run: Run, items: seq<TreeEntry>, destBranch: string, baseSha: string, calls: seq<Call>)
    requires Reached(ctx, run, NewTree(items, destBranch, baseSha)) && run.calls <= calls
    ensures LoopNotes(ctx, calls, |run.calls|) == []
  {
    if |run.calls| == 4 {
      var files := Blobs(ListingReply(ctx, run.calls, 1).value);
      assert Replay(ctx, run.calls, 4, files).fates == [];
      SameReply(ctx, run.calls, calls, 1);
    }
  }

  /** A blob read or create that is the prescribed call leaves the loop, warns
      and skips, or goes on; in each case the loop's guarantees hold. */
  lemma SkippableCopies(ctx: Context, run: Run, call: Call, reply: Reply<string>,
                        items: seq<TreeEntry>, warning: Message)
    requires (call.op.GetBlob? || call.op.PostBlob?) && Proper(ctx, run.calls + [call], |run.calls|)
    requires reply == TextReply(ctx, run.calls + [call], |run.calls|)
    ensures match Skippable(run, call, reply, items, warning)
      case Halt(c) => Copies(ctx, run, c)
      case Next(run1, v) => run1 == run.Issue(call) && reply == Ok(v) && Copies(ctx, run, Copying(items, run1))
  {
  }

  /** Issuing one more call extends the trace, and the remote's answer to it
      is its reply in the extended trace. */
  lemma Issued(ctx: Context, calls: seq<Call>, c: Call)
    ensures calls <= calls + [c]
    ensures (calls + [c])[|calls|] == c
    ensures TextReply(ctx, calls + [c], |calls|) == ctx.remote.text(|calls|, c)
    ensures ListingReply(ctx, calls + [c], |calls|) == ctx.remote.listing(|calls|, c)
  {
  }

  /** A longer trace gives the same replies to the calls they share. */
  lemma SameReply(ctx: Context, calls: seq<Call>, longer: seq<Call>, j: nat)
    requires calls <= longer && j < |calls|
    ensures longer[j] == calls[j]
    ensures TextReply(ctx, longer, j) == TextReply(ctx, calls, j)
    ensures ListingReply(ctx, longer, j) == ListingReply(ctx, calls, j)
  {
  }

  /** What was said of a call stays true when the trace grows. */
  lemma Stable(ctx: Context, calls: seq<Call>, longer: seq<Call>, k: nat)
    requires calls <= longer && k < |calls|
    ensures longer[k] == calls[k]
    ensures VerdictAt(ctx, longer, k) == VerdictAt(ctx, calls, k)
    ensures Proper(ctx, longer, k) == Proper(ctx, calls, k)
    ensures Continued(ctx, longer, k) == Continued(ctx, calls, k)
    ensures Copied(ctx, longer, k) == Copied(ctx, calls, k)
  {
    SameReply(ctx, calls, longer, k);
    SameReply(ctx, calls, longer, 0);
    if k >= 1 {
      SameReply(ctx, calls, longer, k - 1);
    }
    if k > 1 {
      SameReply(ctx, calls, longer, 1);
    }
    if k > 3 {
      SameReply(ctx, calls, longer, 3);
    }
    if k > 2 {
      SameReply(ctx, calls, longer, 2);
    }
    assert longer[..k] == calls[..k];
  }

  lemma StepsExtend(ctx: Context, calls: seq<Call>, longer: seq<Call>, from: nat, to: nat)
    requires calls <= longer && to <= |calls| && Steps(ctx, calls, from, to)
    ensures Steps(ctx, longer, from, to)
  {
    forall k | from <= k < to
      ensures Proper(ctx, longer, k) && Continued(ctx, longer, k)
    {
      Stable(ctx, calls, longer, k);
    }
  }

  /** Calls in [from, mid) that went on, followed by a run settled from `mid`,
      make a run settled from `from`. */
  lemma SettledPrepend(ctx: Context, calls: seq<Call>, o: Outcome, from: nat, mid: nat)
    requires calls <= o.calls && from <= mid <= |calls|
    requires Steps(ctx, calls, from, mid) && Settled(ctx, mid, o)
    ensures Settled(ctx, from, o)
  {
    StepsExtend(ctx, calls, o.calls, from, mid);
  }

  /** A run whose last call threw, after calls from `from` that went on. */
  lemma CrashSettles(ctx: Context, run: Run, m: string, from: nat)
    requires from < |run.calls|
    requires Steps(ctx, run.calls, from, |run.calls| - 1) && Proper(ctx, run.calls, |run.calls| - 1)
    requires VerdictAt(ctx, run.calls, |run.calls| - 1) == Raised(m)
    ensures Settled(ctx, from, Crash(run, m))
  {
    var r := Caught(run.logs, m);
    assert r.logs[..|r.logs| - 1] == run.logs;
  }

  /** A run whose last call, a fatal step, was refused and logged as an error. */
  lemma FailSettles(ctx: Context, run: Run, status: nat, error: Message, from: nat)
    requires from < |run.calls| && run.logs != [] && Last(run.logs).kind == Error
    requires Steps(ctx, run.calls, from, |run.calls| - 1) && Proper(ctx, run.calls, |run.calls| - 1)
    requires var k := |run.calls| - 1;
      && VerdictAt(ctx, run.calls, k).Refused? && Fatal(run.calls[k].op)
      && status == FatalStatus(run.calls[k].op) && error == FatalError(run.calls[k].op, k)
    ensures Settled(ctx, from, Fail(run, status, error))
  {
  }

  lemma PublishesPrepend(ctx: Context, run: Run, next: Run, o: Outcome)
    requires run.calls <= next.calls && run.logs <= next.logs
    requires Steps(ctx, next.calls, |run.calls|, |next.calls|)
    requires Publishes(ctx, next, o)
    requires Warnings(next.logs) + LoopNotes(ctx, o.calls, |next.calls|)
      == Warnings(run.logs) + LoopNotes(ctx, o.calls, |run.calls|)
    ensures Publishes(ctx, run, o)
  {
    SettledPrepend(ctx, next.calls, o, |run.calls|, |next.calls|);
    PrefixTrans(run.logs, next.logs, o.response.logs);
    PrefixTrans(run.calls, next.calls, o.calls);
  }

  lemma CopiesJoin(ctx: Context, start: Run, c0: Copy, c: Copy)
    requires c0.Copying? && Copies(ctx, start, c0) && Copies(ctx, c0.run, c)
    ensures Copies(ctx, start, c)
  {
    var mid := c0.run.calls;
    forall k | |start.calls| <= k < |mid|
      ensures Copied(ctx, c.run.calls, k) && Proper(ctx, c.run.calls, k) && Continued(ctx, c.run.calls, k)
    {
      Stable(ctx, mid, c.run.calls, k);
    }
    PrefixTrans(start.calls, mid, c.run.calls);
    PrefixTrans(start.logs, c0.run.logs, c.run.logs);
  }

  lemma ReadsDoneStable(ctx: Context, calls: seq<Call>, longer: seq<Call>, destBranch: string, baseSha: string)
    requires calls <= longer && ReadsDone(ctx, calls, destBranch, baseSha)
    ensures ReadsDone(ctx, longer, destBranch, baseSha)
  {
    SameReply(ctx, calls, longer, 2);
    SameReply(ctx, calls, longer, 3);
  }

  lemma PrefixTrans<T>(a: seq<T>, b: seq<T>, c: seq<T>)
    requires a <= b && b <= c
    ensures a <= c
  {
    assert c[..|a|] == b[..|a|];
  }

  /** Growing `a` by `front` and then by `back` grows it by `front + back`. */
  lemma Splice<T>(a: seq<T>, a1: seq<T>, g: seq<T>, front: seq<T>, back: seq<T>)
    requires a1 == a + front && a1 <= g && g[|a1|..] == back
    ensures a <= g && g[|a|..] == front + back
  {
    assert g == a1 + back;
  }

  // ---------------------------------------------------------------------------
  // Every run settles
  // ---------------------------------------------------------------------------

  lemma SourceRepoSettles(ctx: Context, run: Run)
    requires Reached(ctx, run, SourceRepo)
    ensures Publishes(ctx, run, SourceRepoStep(ctx, run))
  {
    var call := SourceRepoCall(ctx);
    var reply := ctx.remote.text(|run.calls|, call);
    Issued(ctx, run.calls, call);
    AttemptSettles(ctx, run, ReadingSourceInfo, call, reply, SourceRepoRefusal, 400, SourceRepoError);
    if reply.Ok? {
      SourceRepoGoesOn(ctx, run);
    }
  }

  /** After a successful read of the source repository the run goes on with its tree. */
  lemma SourceRepoNext(ctx: Context, run: Run)
    requires ctx.remote.text(|run.calls|, SourceRepoCall(ctx)).Ok?
    ensures var call := SourceRepoCall(ctx);
      SourceRepoStep(ctx, run) == SourceTreeStep(ctx, run.Log(ReadingSourceInfo, Info).Issue(call).Log(SourceBranchFound(ctx.remote.text(|run.calls|, call).value), Success), ctx.remote.text(|run.calls|, call).value)
  {
  }

  /** A successful read of the source repository reaches the tree read. */
  lemma SourceRepoReaches(ctx: Context, run: Run)
    requires Reached(ctx, run, SourceRepo)
    requires ctx.remote.text(|run.calls|, SourceRepoCall(ctx)).Ok?
    ensures var call := SourceRepoCall(ctx);
      var next := run.Log(ReadingSourceInfo, Info).Issue(call).Log(SourceBranchFound(ctx.remote.text(|run.calls|, call).value), Success);
      Reached(ctx, next, SourceTree(ctx.remote.text(|run.calls|, call).value))
  {
    var call := SourceRepoCall(ctx);
    Issued(ctx, run.calls, call);
  }

  /** Whatever the rest of the run publishes after the read of the source repository succeeded
      it publishes from before that call. */
  lemma SourceRepoAdvances(ctx: Context, run: Run, o: Outcome)
    requires Reached(ctx, run, SourceRepo)
    requires ctx.remote.text(|run.calls|, SourceRepoCall(ctx)).Ok?
    requires var call := SourceRepoCall(ctx);
      Publishes(ctx, run.Log(ReadingSourceInfo, Info).Issue(call).Log(SourceBranchFound(ctx.remote.text(|run.calls|, call).value), Success), o)
    ensures Publishes(ctx, run, o)
  {
    var call := SourceRepoCall(ctx);
    var reply := ctx.remote.text(|run.calls|, call);
    Issued(ctx, run.calls, call);
    StepUnwarned(run, ReadingSourceInfo, call, SourceBranchFound(reply.value));
    EarlyNotes(ctx, o.calls, |run.calls|, |run.calls| + 1);
    AttemptContinues(ctx, run, ReadingSourceInfo, call, reply, SourceRepoRefusal, 400, SourceRepoError,
                     run.Log(ReadingSourceInfo, Info).Issue(call).Log(SourceBranchFound(reply.value), Success), o);
  }

  /** When the read of the source repository succeeded, the step publishes what the next step does:
      SourceRepoNext unfolds it, SourceRepoReaches reaches the next phase, and
      SourceRepoAdvances carries the next step's outcome back. */
  lemma SourceRepoGoesOn(ctx: Context, run: Run)
    requires Reached(ctx, run, SourceRepo)
    requires ctx.remote.text(|run.calls|, SourceRepoCall(ctx)).Ok?
    ensures Publishes(ctx, run, SourceRepoStep(ctx, run))
  {
    var call := SourceRepoCall(ctx);
    var reply := ctx.remote.text(|run.calls|, call);
    var next := run.Log(ReadingSourceInfo, Info).Issue(call).Log(SourceBranchFound(reply.value), Success);
    SourceRepoNext(ctx, run);
    SourceRepoReaches(ctx, run);
    SourceTreeSettles(ctx, next, reply.value);
    SourceRepoAdvances(ctx, run, SourceTreeStep(ctx, next, reply.value));
  }

  lemma SourceTreeSettles(ctx: Context, run: Run, sourceBranch: string)
    requires Reached(ctx, run, SourceTree(sourceBranch))
    ensures Publishes(ctx, run, SourceTreeStep(ctx, run, sourceBranch))
  {
    var call := SourceTreeCall(ctx, sourceBranch);
    var reply := ctx.remote.listing(|run.calls|, call);
    Issued(ctx, run.calls, call);
    SameReply(ctx, run.calls, run.calls + [call], 0);
    AttemptSettles(ctx, run, ReadingSourceTree, call, reply, SourceTreeRefusal, 400, TreeError);
    if reply.Ok? {
      SourceTreeGoesOn(ctx, run, sourceBranch);
    }
  }

  /** After a successful tree read the run goes on with the destination repository. */
  lemma SourceTreeNext(ctx: Context, run: Run, sourceBranch: string)
    requires ctx.remote.listing(|run.calls|, SourceTreeCall(ctx, sourceBranch)).Ok?
    ensures var call := SourceTreeCall(ctx, sourceBranch);
      SourceTreeStep(ctx, run, sourceBranch) == DestRepoStep(ctx, run.Log(ReadingSourceTree, Info).Issue(call).Log(FilesFound(|Blobs(ctx.remote.listing(|run.calls|, call).value)|), Success), Blobs(ctx.remote.listing(|run.calls|, call).value))
  {
  }

  /** A successful tree read reaches the read of the destination repository. */
  lemma SourceTreeReaches(ctx: Context, run: Run, sourceBranch: string)
    requires Reached(ctx, run, SourceTree(sourceBranch))
    requires ctx.remote.listing(|run.calls|, SourceTreeCall(ctx, sourceBranch)).Ok?
    ensures var call := SourceTreeCall(ctx, sourceBranch);
      var next := run.Log(ReadingSourceTree, Info).Issue(call).Log(FilesFound(|Blobs(ctx.remote.listing(|run.calls|, call).value)|), Success);
      Reached(ctx, next, DestRepo(Blobs(ctx.remote.listing(|run.calls|, call).value)))
  {
    var call := SourceTreeCall(ctx, sourceBranch);
    Issued(ctx, run.calls, call);
  }

  /** Whatever the rest of the run publishes after the tree read succeeded
      it publishes from before that call. */
  lemma SourceTreeAdvances(ctx: Context, run: Run, sourceBranch: string, o: Outcome)
    requires Reached(ctx, run, SourceTree(sourceBranch))
    requires ctx.remote.listing(|run.calls|, SourceTreeCall(ctx, sourceBranch)).Ok?
    requires var call := SourceTreeCall(ctx, sourceBranch);
      Publishes(ctx, run.Log(ReadingSourceTree, Info).Issue(call).Log(FilesFound(|Blobs(ctx.remote.listing(|run.calls|, call).value)|), Success), o)
    ensures Publishes(ctx, run, o)
  {
    var call := SourceTreeCall(ctx, sourceBranch);
    var reply := ctx.remote.listing(|run.calls|, call);
    Issued(ctx, run.calls, call);
    SameReply(ctx, run.calls, run.calls + [call], 0);
    StepUnwarned(run, ReadingSourceTree, call, FilesFound(|Blobs(reply.value)|));
    EarlyNotes(ctx, o.calls, |run.calls|, |run.calls| + 1);
    AttemptContinues(ctx, run, ReadingSourceTree, call, reply, SourceTreeRefusal, 400, TreeError,
                     run.Log(ReadingSourceTree, Info).Issue(call).Log(FilesFound(|Blobs(reply.value)|), Success), o);
  }

  /** When the listing of the source tree succeeded, the step publishes what the next step does:
      SourceTreeNext unfolds it, SourceTreeReaches reaches the next phase, and
      SourceTreeAdvances carries the next step's outcome back. */
  lemma SourceTreeGoesOn(ctx: Context, run: Run, sourceBranch: string)
    requires Reached(ctx, run, SourceTree(sourceBranch))
    requires ctx.remote.listing(|run.calls|, SourceTreeCall(ctx, sourceBranch)).Ok?
    ensures Publishes(ctx, run, SourceTreeStep(ctx, run, sourceBranch))
  {
    var call := SourceTreeCall(ctx, sourceBranch);
    var reply := ctx.remote.listing(|run.calls|, call);
    var next := run.Log(ReadingSourceTree, Info).Issue(call).Log(FilesFound(|Blobs(reply.value)|), Success);
    SourceTreeNext(ctx, run, sourceBranch);
    SourceTreeReaches(ctx, run, sourceBranch);
    DestRepoSettles(ctx, next, Blobs(reply.value));
    SourceTreeAdvances(ctx, run, sourceBranch, DestRepoStep(ctx, next, Blobs(reply.value)));
  }

  lemma DestRepoSettles(ctx: Context, run: Run, files: seq<TreeEntry>)
    requires Reached(ctx, run, DestRepo(files))
    ensures Publishes(ctx, run, DestRepoStep(ctx, run, files))
  {
    var call := DestRepoCall(ctx);
    var reply := ctx.remote.text(|run.calls|, call);
    Issued(ctx, run.calls, call);
    AttemptSettles(ctx, run, ReadingDestInfo, call, reply, DestRepoRefusal, 400, DestRepoError);
    if reply.Ok? {
      DestRepoGoesOn(ctx, run, files);
    }
  }

  /** After a successful read of the destination repository the run goes on with its tip. */
  lemma DestRepoNext(ctx: Context, run: Run, files: seq<TreeEntry>)
    requires ctx.remote.text(|run.calls|, DestRepoCall(ctx)).Ok?
    ensures var call := DestRepoCall(ctx);
      DestRepoStep(ctx, run, files) == DestRefStep(ctx, run.Log(ReadingDestInfo, Info).Issue(call).Log(DestBranchFound(ctx.remote.text(|run.calls|, call).value), Success), files, ctx.remote.text(|run.calls|, call).value)
  {
  }

  /** A successful read of the destination repository reaches the tip read. */
  lemma DestRepoReaches(ctx: Context, run: Run, files: seq<TreeEntry>)
    requires Reached(ctx, run, DestRepo(files))
    requires ctx.remote.text(|run.calls|, DestRepoCall(ctx)).Ok?
    ensures var call := DestRepoCall(ctx);
      var next := run.Log(ReadingDestInfo, Info).Issue(call).Log(DestBranchFound(ctx.remote.text(|run.calls|, call).value), Success);
      Reached(ctx, next, DestRef(files, ctx.remote.text(|run.calls|, call).value))
  {
    var call := DestRepoCall(ctx);
    Issued(ctx, run.calls, call);
    SameReply(ctx, run.calls, run.calls + [call], 1);
  }

  /** Whatever the rest of the run publishes after the read of the destination repository succeeded
      it publishes from before that call. */
  lemma DestRepoAdvances(ctx: Context, run: Run, files: seq<TreeEntry>, o: Outcome)
    requires Reached(ctx, run, DestRepo(files))
    requires ctx.remote.text(|run.calls|, DestRepoCall(ctx)).Ok?
    requires var call := DestRepoCall(ctx);
      Publishes(ctx, run.Log(ReadingDestInfo, Info).Issue(call).Log(DestBranchFound(ctx.remote.text(|run.calls|, call).value), Success), o)
    ensures Publishes(ctx, run, o)
  {
    var call := DestRepoCall(ctx);
    var reply := ctx.remote.text(|run.calls|, call);
    Issued(ctx, run.calls, call);
    StepUnwarned(run, ReadingDestInfo, call, DestBranchFound(reply.value));
    EarlyNotes(ctx, o.calls, |run.calls|, |run.calls| + 1);
    AttemptContinues(ctx, run, ReadingDestInfo, call, reply, DestRepoRefusal, 400, DestRepoError,
                     run.Log(ReadingDestInfo, Info).Issue(call).Log(DestBranchFound(reply.value), Success), o);
  }

  /** When the read of the destination repository succeeded, the step publishes what the next step does:
      DestRepoNext unfolds it, DestRepoReaches reaches the next phase, and
      DestRepoAdvances carries the next step's outcome back. */
  lemma DestRepoGoesOn(ctx: Context, run: Run, files: seq<TreeEntry>)
    requires Reached(ctx, run, DestRepo(files))
    requires ctx.remote.text(|run.calls|, DestRepoCall(ctx)).Ok?
    ensures Publishes(ctx, run, DestRepoStep(ctx, run, files))
  {
    var call := DestRepoCall(ctx);
    var reply := ctx.remote.text(|run.calls|, call);
    var next := run.Log(ReadingDestInfo, Info).Issue(call).Log(DestBranchFound(reply.value), Success);
    DestRepoNext(ctx, run, files);
    DestRepoReaches(ctx, run, files);
    DestRefSettles(ctx, next, files, reply.value);
    DestRepoAdvances(ctx, run, files, DestRefStep(ctx, next, files, reply.value));
  }

  lemma DestRefSettles(ctx: Context, run: Run, files: seq<TreeEntry>, destBranch: string)
    requires Reached(ctx, run, DestRef(files, destBranch))
    ensures Publishes(ctx, run, DestRefStep(ctx, run, files, destBranch))
  {
    var call := DestRefCall(ctx, destBranch);
    var reply := ctx.remote.text(|run.calls|, call);
    Issued(ctx, run.calls, call);
    SameReply(ctx, run.calls, run.calls + [call], 2);
    AttemptSettles(ctx, run, ReadingDestRef, call, reply, DestRefRefusal, 400, DestRefError);
    if reply.Ok? {
      DestRefGoesOn(ctx, run, files, destBranch);
    }
  }

  /** After a successful tip read the run goes on with the copy. */
  lemma DestRefNext(ctx: Context, run: Run, files: seq<TreeEntry>, destBranch: string)
    requires ctx.remote.text(|run.calls|, DestRefCall(ctx, destBranch)).Ok?
    ensures var call := DestRefCall(ctx, destBranch);
      DestRefStep(ctx, run, files, destBranch)
      == CopyStep(ctx, run.Log(ReadingDestRef, Info).Issue(call), files, destBranch, ctx.remote.text(|run.calls|, call).value)
  {
  }

  /** A successful tip read reaches the copy. */
  lemma DestRefReaches(ctx: Context, run: Run, files: seq<TreeEntry>, destBranch: string)
    requires Reached(ctx, run, DestRef(files, destBranch))
    requires ctx.remote.text(|run.calls|, DestRefCall(ctx, destBranch)).Ok?
    ensures var call := DestRefCall(ctx, destBranch);
      var next := run.Log(ReadingDestRef, Info).Issue(call);
      Reached(ctx, next, CopyFiles(files, destBranch, ctx.remote.text(|run.calls|, call).value))
  {
    var call := DestRefCall(ctx, destBranch);
    Issued(ctx, run.calls, call);
    SameReply(ctx, run.calls, run.calls + [call], 1);
    SameReply(ctx, run.calls, run.calls + [call], 2);
  }

  /** Whatever the rest of the run publishes after the tip read succeeded
      it publishes from before that call. */
  lemma DestRefAdvances(ctx: Context, run: Run, files: seq<TreeEntry>, destBranch: string, o: Outcome)
    requires Reached(ctx, run, DestRef(files, destBranch))
    requires ctx.remote.text(|run.calls|, DestRefCall(ctx, destBranch)).Ok?
    requires var call := DestRefCall(ctx, destBranch);
      Publishes(ctx, run.Log(ReadingDestRef, Info).Issue(call), o)
    ensures Publishes(ctx, run, o)
  {
    var call := DestRefCall(ctx, destBranch);
    var reply := ctx.remote.text(|run.calls|, call);
    Issued(ctx, run.calls, call);
    SameReply(ctx, run.calls, run.calls + [call], 2);
    ReadUnwarned(run, ReadingDestRef, call);
    EarlyNotes(ctx, o.calls, |run.calls|, |run.calls| + 1);
    AttemptContinues(ctx, run, ReadingDestRef, call, reply, DestRefRefusal, 400, DestRefError,
                     run.Log(ReadingDestRef, Info).Issue(call), o);
  }

  /** When the read of the destination tip succeeded, the step publishes what the next step does:
      DestRefNext unfolds it, DestRefReaches reaches the next phase, and
      DestRefAdvances carries the next step's outcome back. */
  lemma DestRefGoesOn(ctx: Context, run: Run, files: seq<TreeEntry>, destBranch: string)
    requires Reached(ctx, run, DestRef(files, destBranch))
    requires ctx.remote.text(|run.calls|, DestRefCall(ctx, destBranch)).Ok?
    ensures Publishes(ctx, run, DestRefStep(ctx, run, files, destBranch))
  {
    var call := DestRefCall(ctx, destBranch);
    var reply := ctx.remote.text(|run.calls|, call);
    var next := run.Log(ReadingDestRef, Info).Issue(call);
    DestRefNext(ctx, run, files, destBranch);
    DestRefReaches(ctx, run, files, destBranch);
    CopySettles(ctx, next, files, destBranch, reply.value);
    DestRefAdvances(ctx, run, files, destBranch, CopyStep(ctx, next, files, destBranch, reply.value));
  }

  /** A copy that completes reaches the tree creation with the items it
      built, after proper blob reads and creates that all went on. */
  lemma {:induction false} CopyReaches(ctx: Context, run: Run, files: seq<TreeEntry>, destBranch: string, baseSha: string)
    requires Reached(ctx, run, CopyFiles(files, destBranch, baseSha))
    ensures match CopyFrom(ctx, files, [], run.Log(TransferringBlobs, Info))
      case Crashed(_, _) => true
      case Copying(items, copied) =>
        && Reached(ctx, copied, NewTree(items, destBranch, baseSha))
        && run.calls <= copied.calls && run.logs <= copied.logs
        && Steps(ctx, copied.calls, |run.calls|, |copied.calls|)
  {
    var start := run.Log(TransferringBlobs, Info);
    LoopingStarts(ctx, run, files, destBranch, baseSha);
    CopyFromCopies(ctx, files, 0, [], start);
    assert files[0..] == files;
    match CopyFrom(ctx, files, [], start)
    case Crashed(_, _) =>
    case Copying(items, copied) =>
      ReadsDoneStable(ctx, run.calls, copied.calls, destBranch, baseSha);
      CopyFromReplay(ctx, files, [], start);
      SameReply(ctx, run.calls, copied.calls, 1);
      assert items[0..] == items;
      PrefixTrans(run.logs, start.logs, copied.logs);
  }

  lemma CopySettles(ctx: Context, run: Run, files: seq<TreeEntry>, destBranch: string, baseSha: string)
    requires Reached(ctx, run, CopyFiles(files, destBranch, baseSha))
    ensures Publishes(ctx, run, CopyStep(ctx, run, files, destBranch, baseSha))
  {
    var start := run.Log(TransferringBlobs, Info);
    match CopyFrom(ctx, files, [], start)
    case Crashed(copied, m) =>
      LoopingStarts(ctx, run, files, destBranch, baseSha);
      CopyFromCopies(ctx, files, 0, [], start);
      assert files[0..] == files;
      assert Copied(ctx, copied.calls, |copied.calls| - 1);
      CrashSettles(ctx, copied, m, |run.calls|);
      PrefixTrans(run.logs, start.logs, copied.logs);
      CopyCrashWarns(ctx, run, files, destBranch, baseSha);
    case Copying(items, copied) =>
      CopyReaches(ctx, run, files, destBranch, baseSha);
      var next := copied.Log(BlobsTransferred(|items|), Success);
      var o := TreeStep(ctx, next, items, destBranch, baseSha);
      TreeSettles(ctx, next, items, destBranch, baseSha);
      CopyWarns(ctx, run, files, destBranch, baseSha, o);
      PublishesPrepend(ctx, run, next, o);
  }

  /** A loop that threw logged the skip notes of the files it went through,
      and the catch-all logs no warning. */
  lemma {:induction false} CopyCrashWarns(ctx: Context, run: Run, files: seq<TreeEntry>, destBranch: string, baseSha: string)
    requires Reached(ctx, run, CopyFiles(files, destBranch, baseSha))
    ensures var start := run.Log(TransferringBlobs, Info);
      match CopyFrom(ctx, files, [], start)
      case Copying(_, _) => true
      case Crashed(copied, m) =>
        Warnings(Crash(copied, m).response.logs) == Warnings(run.logs) + LoopNotes(ctx, copied.calls, |run.calls|)
  {
    var start := run.Log(TransferringBlobs, Info);
    CopyFromReplay(ctx, files, [], start);
    match CopyFrom(ctx, files, [], start)
    case Copying(_, _) =>
    case Crashed(copied, m) =>
      var notes := SkipNotes(files, Replay(ctx, copied.calls, |start.calls|, files).fates);
      assert copied.logs == run.logs + [LogEntry(TransferringBlobs, Info)] + notes;
      WarningsAcross(run.logs, LogEntry(TransferringBlobs, Info), notes, LogEntry(InternalError(m), Error));
      SameReply(ctx, run.calls, copied.calls, 1);
  }

  /** A loop that went through every file logged their skip notes, which
      are the loop's notes in the whole trace, and nothing after it warns. */
  lemma {:induction false} CopyWarns(ctx: Context, run: Run, files: seq<TreeEntry>, destBranch: string, baseSha: string, o: Outcome)
    requires Reached(ctx, run, CopyFiles(files, destBranch, baseSha))
    requires match CopyFrom(ctx, files, [], run.Log(TransferringBlobs, Info))
      case Crashed(_, _) => true
      case Copying(items, copied) =>
        Publishes(ctx, copied.Log(BlobsTransferred(|items|), Success), o)
    ensures match CopyFrom(ctx, files, [], run.Log(TransferringBlobs, Info))
      case Crashed(_, _) => true
      case Copying(items, copied) =>
        var next := copied.Log(BlobsTransferred(|items|), Success);
        Warnings(next.logs) + LoopNotes(ctx, o.calls, |next.calls|)
          == Warnings(run.logs) + LoopNotes(ctx, o.calls, |run.calls|)
  {
    var start := run.Log(TransferringBlobs, Info);
    CopyFromReplay(ctx, files, [], start);
    CopyReaches(ctx, run, files, destBranch, baseSha);
    match CopyFrom(ctx, files, [], start)
    case Crashed(_, _) =>
    case Copying(items, copied) =>
      var next := copied.Log(BlobsTransferred(|items|), Success);
      var w := Replay(ctx, copied.calls, |start.calls|, files);
      assert copied.logs == run.logs + [LogEntry(TransferringBlobs, Info)] + SkipNotes(files, w.fates);
      WarningsAcross(run.logs, LogEntry(TransferringBlobs, Info), SkipNotes(files, w.fates), LogEntry(BlobsTransferred(|items|), Success));
      NewTreeQuiet(ctx, next, items, destBranch, baseSha, o.calls);
      ReplayStable(ctx, copied.calls, o.calls, 4, files);
      PrefixTrans(run.calls, copied.calls, o.calls);
      SameReply(ctx, run.calls, o.calls, 1);
  }

  lemma TreeSettles(ctx: Context, run: Run, items: seq<TreeEntry>, destBranch: string, baseSha: string)
    requires Reached(ctx, run, NewTree(items, destBranch, baseSha))
    ensures Publishes(ctx, run, TreeStep(ctx, run, items, destBranch, baseSha))
  {
    var call := NewTreeCall(ctx, items);
    var reply := ctx.remote.text(|run.calls|, call);
    Issued(ctx, run.calls, call);
    TreeProper(ctx, run, items, destBranch, baseSha);
    AttemptSettles(ctx, run, CreatingTree, call, reply, TreeRefusal, 500, CreateTreeError);
    if reply.Ok? {
      TreeGoesOn(ctx, run, items, destBranch, baseSha);
    }
  }

  /** After a successful tree creation the run goes on with the commit. */
  lemma TreeNext(ctx: Context, run: Run, items: seq<TreeEntry>, destBranch: string, baseSha: string)
    requires ctx.remote.text(|run.calls|, NewTreeCall(ctx, items)).Ok?
    ensures var call := NewTreeCall(ctx, items);
      TreeStep(ctx, run, items, destBranch, baseSha) == CommitStep(ctx, run.Log(CreatingTree, Info).Issue(call).Log(TreeCreated, Success), ctx.remote.text(|run.calls|, call).value, destBranch, baseSha)
  {
  }

  /** The tree step's first call creates exactly `items` in the destination. */
  lemma TreeIssues(ctx: Context, run: Run, items: seq<TreeEntry>, destBranch: string, baseSha: string)
    requires Reached(ctx, run, NewTree(items, destBranch, baseSha))
    ensures var o := TreeStep(ctx, run, items, destBranch, baseSha);
      |run.calls| < |o.calls| && o.calls[|run.calls|] == NewTreeCall(ctx, items)
  {
    var call := NewTreeCall(ctx, items);
    var reply := ctx.remote.text(|run.calls|, call);
    if reply.Ok? {
      var next := run.Log(CreatingTree, Info).Issue(call).Log(TreeCreated, Success);
      TreeNext(ctx, run, items, destBranch, baseSha);
      TreeReaches(ctx, run, items, destBranch, baseSha);
      CommitSettles(ctx, next, reply.value, destBranch, baseSha);
      Issued(ctx, run.calls, call);
    }
  }

  /** The count the handler logs after the loop is the number of items of the
      tree it then asks the destination to create. */
  lemma {:induction false} CopyReport(ctx: Context, run: Run, files: seq<TreeEntry>, destBranch: string, baseSha: string)
    requires Reached(ctx, run, CopyFiles(files, destBranch, baseSha))
    ensures var o := CopyStep(ctx, run, files, destBranch, baseSha);
      match CopyFrom(ctx, files, [], run.Log(TransferringBlobs, Info))
      case Crashed(copied, _) => o.calls == copied.calls && !o.response.success
      case Copying(items, copied) =>
        && |copied.logs| < |o.response.logs|
        && o.response.logs[|copied.logs|] == LogEntry(BlobsTransferred(|items|), Success)
        && |copied.calls| < |o.calls|
        && o.calls[|copied.calls|].op == PostTree(ctx.req.destOwner, ctx.req.destRepo, items)
  {
    match CopyFrom(ctx, files, [], run.Log(TransferringBlobs, Info))
    case Crashed(_, _) =>
    case Copying(items, copied) =>
      CopyReaches(ctx, run, files, destBranch, baseSha);
      var next := copied.Log(BlobsTransferred(|items|), Success);
      TreeSettles(ctx, next, items, destBranch, baseSha);
      TreeIssues(ctx, next, items, destBranch, baseSha);
  }

  /** A successful tree creation reaches the commit. */
  lemma TreeReaches(ctx: Context, run: Run, items: seq<TreeEntry>, destBranch: string, baseSha: string)
    requires Reached(ctx, run, NewTree(items, destBranch, baseSha))
    requires ctx.remote.text(|run.calls|, NewTreeCall(ctx, items)).Ok?
    ensures var call := NewTreeCall(ctx, items);
      var next := run.Log(CreatingTree, Info).Issue(call).Log(TreeCreated, Success);
      Reached(ctx, next, NewCommit(ctx.remote.text(|run.calls|, call).value, destBranch, baseSha))
  {
    var call := NewTreeCall(ctx, items);
    Issued(ctx, run.calls, call);
    ReadsDoneStable(ctx, run.calls, run.calls + [call], destBranch, baseSha);
  }

  /** The tree creation is the prescribed call: its items are the ones the
      loop's calls stand for. */
  lemma {:induction false} TreeProper(ctx: Context, run: Run, items: seq<TreeEntry>, destBranch: string, baseSha: string)
    requires Reached(ctx, run, NewTree(items, destBranch, baseSha))
    ensures var call := NewTreeCall(ctx, items);
      Proper(ctx, run.calls + [call], |run.calls|)
  {
    var call := NewTreeCall(ctx, items);
    assert (run.calls + [call])[..|run.calls|] == run.calls;
  }

  /** Whatever the rest of the run publishes after a successful tree creation
      it publishes from before the creation. */
  lemma TreeAdvances(ctx: Context, run: Run, items: seq<TreeEntry>, destBranch: string, baseSha: string, o: Outcome)
    requires Reached(ctx, run, NewTree(items, destBranch, baseSha))
    requires ctx.remote.text(|run.calls|, NewTreeCall(ctx, items)).Ok?
    requires var call := NewTreeCall(ctx, items);
      Publishes(ctx, run.Log(CreatingTree, Info).Issue(call).Log(TreeCreated, Success), o)
    ensures Publishes(ctx, run, o)
  {
    var call := NewTreeCall(ctx, items);
    var reply := ctx.remote.text(|run.calls|, call);
    Issued(ctx, run.calls, call);
    var next := run.Log(CreatingTree, Info).Issue(call).Log(TreeCreated, Success);
    TreeProper(ctx, run, items, destBranch, baseSha);
    PrefixTrans(run.calls, next.calls, o.calls);
    NewTreeQuiet(ctx, run, items, destBranch, baseSha, o.calls);
    LateNotes(ctx, o.calls, |next.calls|);
    StepUnwarned(run, CreatingTree, call, TreeCreated);
    AttemptContinues(ctx, run, CreatingTree, call, reply, TreeRefusal, 500, CreateTreeError, next, o);
  }

  /** When the tree creation succeeded, the step publishes what the next step does:
      TreeNext unfolds it, TreeReaches reaches the next phase, and
      TreeAdvances carries the next step's outcome back. */
  lemma TreeGoesOn(ctx: Context, run: Run, items: seq<TreeEntry>, destBranch: string, baseSha: string)
    requires Reached(ctx, run, NewTree(items, destBranch, baseSha))
    requires ctx.remote.text(|run.calls|, NewTreeCall(ctx, items)).Ok?
    ensures Publishes(ctx, run, TreeStep(ctx, run, items, destBranch, baseSha))
  {
    var call := NewTreeCall(ctx, items);
    var reply := ctx.remote.text(|run.calls|, call);
    var next := run.Log(CreatingTree, Info).Issue(call).Log(TreeCreated, Success);
    TreeNext(ctx, run, items, destBranch, baseSha);
    TreeReaches(ctx, run, items, destBranch, baseSha);
    CommitSettles(ctx, next, reply.value, destBranch, baseSha);
    TreeAdvances(ctx, run, items, destBranch, baseSha, CommitStep(ctx, next, reply.value, destBranch, baseSha));
  }

  /** The commit call is the prescribed one: its message, its tree and its
      single parent come from the request and the replies before it. */
  lemma CommitProper(ctx: Context, run: Run, treeSha: string, destBranch: string, baseSha: string)
    requires Reached(ctx, run, NewCommit(treeSha, destBranch, baseSha))
    ensures var call := NewCommitCall(ctx, treeSha, baseSha);
      && Proper(ctx, run.calls + [call], |run.calls|)
      && Judge(ctx.remote.text(|run.calls|, call)) == VerdictAt(ctx, run.calls + [call], |run.calls|)
  {
    var call := NewCommitCall(ctx, treeSha, baseSha);
    Issued(ctx, run.calls, call);
    SameReply(ctx, run.calls, run.calls + [call], |run.calls| - 1);
    SameReply(ctx, run.calls, run.calls + [call], 3);
  }

  lemma CommitSettles(ctx: Context, run: Run, treeSha: string, destBranch: string, baseSha: string)
    requires Reached(ctx, run, NewCommit(treeSha, destBranch, baseSha))
    ensures Publishes(ctx, run, CommitStep(ctx, run, treeSha, destBranch, baseSha))
  {
    var call := NewCommitCall(ctx, treeSha, baseSha);
    var reply := ctx.remote.text(|run.calls|, call);
    CommitProper(ctx, run, treeSha, destBranch, baseSha);
    AttemptSettles(ctx, run, CreatingCommit, call, reply, CommitRefusal, 500, CommitError);
    if reply.Ok? {
      CommitGoesOn(ctx, run, treeSha, destBranch, baseSha);
    }
  }

  /** After a successful commit creation the run goes on with the branch update. */
  lemma CommitNext(ctx: Context, run: Run, treeSha: string, destBranch: string, baseSha: string)
    requires ctx.remote.text(|run.calls|, NewCommitCall(ctx, treeSha, baseSha)).Ok?
    ensures var call := NewCommitCall(ctx, treeSha, baseSha);
      CommitStep(ctx, run, treeSha, destBranch, baseSha) == BranchStep(ctx, run.Log(CreatingCommit, Info).Issue(call).Log(CommitCreated(ctx.remote.text(|run.calls|, call).value), Success), ctx.remote.text(|run.calls|, call).value, destBranch)
  {
  }

  /** A successful commit creation reaches the branch update. */
  lemma CommitReaches(ctx: Context, run: Run, treeSha: string, destBranch: string, baseSha: string)
    requires Reached(ctx, run, NewCommit(treeSha, destBranch, baseSha))
    requires ctx.remote.text(|run.calls|, NewCommitCall(ctx, treeSha, baseSha)).Ok?
    ensures var call := NewCommitCall(ctx, treeSha, baseSha);
      var next := run.Log(CreatingCommit, Info).Issue(call).Log(CommitCreated(ctx.remote.text(|run.calls|, call).value), Success);
      Reached(ctx, next, MoveBranch(ctx.remote.text(|run.calls|, call).value, destBranch))
  {
    var call := NewCommitCall(ctx, treeSha, baseSha);
    Issued(ctx, run.calls, call);
    SameReply(ctx, run.calls, run.calls + [call], 2);
  }

  /** Whatever the rest of the run publishes after the commit creation succeeded
      it publishes from before that call. */
  lemma CommitAdvances(ctx: Context, run: Run, treeSha: string, destBranch: string, baseSha: string, o: Outcome)
    requires Reached(ctx, run, NewCommit(treeSha, destBranch, baseSha))
    requires ctx.remote.text(|run.calls|, NewCommitCall(ctx, treeSha, baseSha)).Ok?
    requires var call := NewCommitCall(ctx, treeSha, baseSha);
      Publishes(ctx, run.Log(CreatingCommit, Info).Issue(call).Log(CommitCreated(ctx.remote.text(|run.calls|, call).value), Success), o)
    ensures Publishes(ctx, run, o)
  {
    var call := NewCommitCall(ctx, treeSha, baseSha);
    var reply := ctx.remote.text(|run.calls|, call);
    CommitProper(ctx, run, treeSha, destBranch, baseSha);
    assert |run.calls| > 4 by {
      assert run.calls[3].op.GetRef?;
    }
    LateNotes(ctx, o.calls, |run.calls|);
    LateNotes(ctx, o.calls, |run.calls| + 1);
    StepUnwarned(run, CreatingCommit, call, CommitCreated(reply.value));
    AttemptContinues(ctx, run, CreatingCommit, call, reply, CommitRefusal, 500, CommitError,
                     run.Log(CreatingCommit, Info).Issue(call).Log(CommitCreated(reply.value), Success), o);
  }

  /** When the commit creation succeeded, the step publishes what the next step does:
      CommitNext unfolds it, CommitReaches reaches the next phase, and
      CommitAdvances carries the next step's outcome back. */
  lemma CommitGoesOn(ctx: Context, run: Run, treeSha: string, destBranch: string, baseSha: string)
    requires Reached(ctx, run, NewCommit(treeSha, destBranch, baseSha))
    requires var call := NewCommitCall(ctx, treeSha, baseSha);
      ctx.remote.text(|run.calls|, call).Ok?
    ensures Publishes(ctx, run, CommitStep(ctx, run, treeSha, destBranch, baseSha))
  {
    var call := NewCommitCall(ctx, treeSha, baseSha);
    var reply := ctx.remote.text(|run.calls|, call);
    var next := run.Log(CreatingCommit, Info).Issue(call).Log(CommitCreated(reply.value), Success);
    CommitNext(ctx, run, treeSha, destBranch, baseSha);
    CommitReaches(ctx, run, treeSha, destBranch, baseSha);
    BranchSettles(ctx, next, reply.value, destBranch);
    CommitAdvances(ctx, run, treeSha, destBranch, baseSha, BranchStep(ctx, next, reply.value, destBranch));
  }

  lemma BranchSettles(ctx: Context, run: Run, commitSha: string, destBranch: string)
    requires Reached(ctx, run, MoveBranch(commitSha, destBranch))
    ensures Publishes(ctx, run, BranchStep(ctx, run, commitSha, destBranch))
  {
    var call := MoveBranchCall(ctx, commitSha, destBranch);
    var reply := ctx.remote.text(|run.calls|, call);
    Issued(ctx, run.calls, call);
    SameReply(ctx, run.calls, run.calls + [call], |run.calls| - 1);
    SameReply(ctx, run.calls, run.calls + [call], 2);
    AttemptSettles(ctx, run, UpdatingBranch, call, reply, BranchRefusal, 500, UpdateError);
    if reply.Ok? {
      BranchWarns(ctx, run, commitSha, destBranch);
    }
  }

  /** The branch update and the two success entries after it log no warning,
      and the loop is long past. */
  lemma BranchWarns(ctx: Context, run: Run, commitSha: string, destBranch: string)
    requires Reached(ctx, run, MoveBranch(commitSha, destBranch))
    requires ctx.remote.text(|run.calls|, MoveBranchCall(ctx, commitSha, destBranch)).Ok?
    ensures var o := BranchStep(ctx, run, commitSha, destBranch);
      Warnings(o.response.logs) == Warnings(run.logs) + LoopNotes(ctx, o.calls, |run.calls|)
  {
    var call := MoveBranchCall(ctx, commitSha, destBranch);
    var o := BranchStep(ctx, run, commitSha, destBranch);
    var run2 := run.Log(UpdatingBranch, Info).Issue(call).Log(BranchUpdated, Success).Log(RemixComplete, Success);
    assert o.response.logs == run2.logs;
    StepUnwarned(run, UpdatingBranch, call, BranchUpdated);
    UnwarnedWarnings(run.logs, run2.logs);
    LateNotes(ctx, o.calls, |run.calls|);
  }

  /** Before the loop, the calls went through none of the files. */
  lemma {:induction false} LoopingStarts(ctx: Context, run: Run, files: seq<TreeEntry>, destBranch: string, baseSha: string)
    requires Reached(ctx, run, CopyFiles(files, destBranch, baseSha))
    ensures Looping(ctx, run.calls, files, 0)
  {
  }

  /** With the first `n` files gone through, the read of `all[n]` is the one due. */
  lemma {:induction false} LoopingDue(ctx: Context, calls: seq<Call>, all: seq<TreeEntry>, n: nat)
    requires n < |all| && Looping(ctx, calls, all, n)
    ensures Due(ctx, calls + [ReadCall(ctx, all[n])], |calls|)
  {
    var read := ReadCall(ctx, all[n]);
    SameReply(ctx, calls, calls + [read], 1);
    assert (calls + [read])[..|calls|] == calls;
  }

  /** One more file gone through, by the calls that extend the trace. */
  lemma {:induction false} LoopingGrow(ctx: Context, calls: seq<Call>, longer: seq<Call>, all: seq<TreeEntry>, n: nat)
    requires n < |all| && Looping(ctx, calls, all, n) && calls <= longer
    requires var s := Advance(ctx, longer, |calls|, all[n]); s.Some? && s.value.next == |longer|
    ensures Looping(ctx, longer, all, n + 1)
  {
    ReplayExtend(ctx, calls, longer, 4, all);
    SameReply(ctx, calls, longer, 1);
  }

  /** One iteration of the copy loop keeps the loop's guarantees: its read is
      the one due for `all[n]`, its create uses the content just read. */
  lemma {:induction false} CopyOneCopies(ctx: Context, all: seq<TreeEntry>, n: nat, items: seq<TreeEntry>, run: Run)
    requires n < |all| && Looping(ctx, run.calls, all, n)
    ensures Copies(ctx, run, CopyOne(ctx, all[n], items, run))
  {
    var file := all[n];
    var read := ReadCall(ctx, file);
    var readReply := ctx.remote.text(|run.calls|, read);
    Issued(ctx, run.calls, read);
    LoopingDue(ctx, run.calls, all, n);
    SkippableCopies(ctx, run, read, readReply, items, ReadWarning(file.path));
    match Skippable(run, read, readReply, items, ReadWarning(file.path))
    case Halt(_) =>
    case Next(run1, content) =>
      var create := CreateCall(ctx, content);
      var createReply := ctx.remote.text(|run1.calls|, create);
      Issued(ctx, run1.calls, create);
      SameReply(ctx, run1.calls, run1.calls + [create], |run.calls|);
      SkippableCopies(ctx, run1, create, createReply, items, CreateWarning(file.path));
      CopiesJoin(ctx, run, Copying(items, run1), CopyOne(ctx, file, items, run));
  }

  /** The rest of the loop, from the `n`-th file on, keeps the loop's guarantees. */
  lemma {:induction false} CopyFromCopies(ctx: Context, all: seq<TreeEntry>, n: nat, items: seq<TreeEntry>, run: Run)
    requires Looping(ctx, run.calls, all, n)
    ensures Copies(ctx, run, CopyFrom(ctx, all[n..], items, run))
    decreases |all| - n
  {
    var files := all[n..];
    if n < |all| {
      assert files[0] == all[n] && files[1..] == all[n + 1..];
      CopyOneCopies(ctx, all, n, items, run);
      CopyOneReplay(ctx, all[n], items, run);
      match CopyOne(ctx, all[n], items, run)
      case Crashed(_, _) =>
      case Copying(items1, run1) =>
        LoopingGrow(ctx, run.calls, run1.calls, all, n);
        CopyFromCopies(ctx, all, n + 1, items1, run1);
        CopiesJoin(ctx, run, Copying(items1, run1), CopyFrom(ctx, files, items, run));
    } else {
      assert files == [];
    }
  }

  /** A replay that went through all its files reads the same from a longer trace. */
  lemma {:induction false} ReplayStable(ctx: Context, calls: seq<Call>, longer: seq<Call>, pos: nat, files: seq<TreeEntry>)
    requires calls <= longer && |Replay(ctx, calls, pos, files).fates| == |files|
    ensures Replay(ctx, longer, pos, files) == Replay(ctx, calls, pos, files)
    decreases |files|
  {
    if files != [] {
      AdvanceStable(ctx, calls, longer, pos, files[0]);
      ReplayStable(ctx, calls, longer, Advance(ctx, calls, pos, files[0]).value.next, files[1..]);
    }
  }

  /** One file's calls read the same from a longer trace. */
  lemma AdvanceStable(ctx: Context, calls: seq<Call>, longer: seq<Call>, pos: nat, file: TreeEntry)
    requires calls <= longer && Advance(ctx, calls, pos, file).Some?
    ensures Advance(ctx, longer, pos, file) == Advance(ctx, calls, pos, file)
  {
    SameReply(ctx, calls, longer, pos);
    if pos + 1 < |calls| {
      SameReply(ctx, calls, longer, pos + 1);
    }
  }

  /** A replay that stopped because the calls ran out goes one file further
      once the trace grows by that file's calls. */
  lemma {:induction false} ReplayExtend(ctx: Context, calls: seq<Call>, longer: seq<Call>, pos: nat, files: seq<TreeEntry>)
    requires calls <= longer && pos <= |calls|
    requires Replay(ctx, calls, pos, files).end == |calls|
    requires |Replay(ctx, calls, pos, files).fates| < |files|
    requires var s := Advance(ctx, longer, |calls|, files[|Replay(ctx, calls, pos, files).fates|]);
      s.Some? && s.value.next == |longer|
    ensures var w := Replay(ctx, calls, pos, files);
      Replay(ctx, longer, pos, files)
        == Walk(w.fates + [Advance(ctx, longer, |calls|, files[|w.fates|]).value.fate], |longer|)
    decreases |files|
  {
    if pos < |calls| {
      var s := Advance(ctx, calls, pos, files[0]).value;
      AdvanceStable(ctx, calls, longer, pos, files[0]);
      ReplayExtend(ctx, calls, longer, s.next, files[1..]);
    }
  }

  /** One iteration, read back from its own calls: the file's fate, the item
      it appends if the file is kept, and the warning it logs if skipped. */
  lemma {:induction false} CopyOneReplay(ctx: Context, file: TreeEntry, items: seq<TreeEntry>, run: Run)
    ensures match CopyOne(ctx, file, items, run)
      case Crashed(crashed, _) =>
        && run.calls <= crashed.calls && crashed.logs == run.logs
        && Advance(ctx, crashed.calls, |run.calls|, file).None?
      case Copying(items1, run1) =>
        var s := Advance(ctx, run1.calls, |run.calls|, file);
        && run.calls <= run1.calls
        && s.Some? && s.value.next == |run1.calls|
        && items1 == items + KeptItems([file], [s.value.fate])
        && run1.logs == run.logs + SkipNotes([file], [s.value.fate])
  {
    var read := ReadCall(ctx, file);
    var readReply := ctx.remote.text(|run.calls|, read);
    Issued(ctx, run.calls, read);
    assert [file][1..] == [];
    match Skippable(run, read, readReply, items, ReadWarning(file.path))
    case Halt(_) =>
    case Next(run1, content) =>
      var create := CreateCall(ctx, content);
      var createReply := ctx.remote.text(|run1.calls|, create);
      Issued(ctx, run1.calls, create);
      SameReply(ctx, run1.calls, run1.calls + [create], |run.calls|);
  }

  /** The items and the warnings of one file, in front of those of the files
      after it, are those of all the files. */
  lemma {:induction false} WalkGrow(ctx: Context, files: seq<TreeEntry>, items: seq<TreeEntry>, items1: seq<TreeEntry>,
                 grown: seq<TreeEntry>, run: Run, run1: Run, after: Run)
    requires files != [] && run.calls <= run1.calls && run1.calls <= after.calls
    requires var s := Advance(ctx, run1.calls, |run.calls|, files[0]);
      && s.Some? && s.value.next == |run1.calls|
      && items1 == items + KeptItems([files[0]], [s.value.fate])
      && run1.logs == run.logs + SkipNotes([files[0]], [s.value.fate])
    requires var w := Replay(ctx, after.calls, |run1.calls|, files[1..]);
      && items1 <= grown && run1.logs <= after.logs
      && |w.fates| == |files| - 1 && w.end == |after.calls|
      && grown[|items1|..] == KeptItems(files[1..], w.fates)
      && after.logs[|run1.logs|..] == SkipNotes(files[1..], w.fates)
    ensures var w := Replay(ctx, after.calls, |run.calls|, files);
      && run.calls <= after.calls && items <= grown && run.logs <= after.logs
      && |w.fates| == |files| && w.end == |after.calls|
      && grown[|items|..] == KeptItems(files, w.fates)
      && after.logs[|run.logs|..] == SkipNotes(files, w.fates)
  {
    var fate := Advance(ctx, run1.calls, |run.calls|, files[0]).value.fate;
    var rest := Replay(ctx, after.calls, |run1.calls|, files[1..]);
    AdvanceStable(ctx, run1.calls, after.calls, |run.calls|, files[0]);
    assert Replay(ctx, after.calls, |run.calls|, files) == Then(fate, rest);
    KeptFront(files, [fate] + rest.fates);
    assert ([fate] + rest.fates)[1..] == rest.fates;
    PrefixTrans(run.calls, run1.calls, after.calls);
    Splice(items, items1, grown, KeptItems([files[0]], [fate]), KeptItems(files[1..], rest.fates));
    Splice(run.logs, run1.logs, after.logs, SkipNotes([files[0]], [fate]), SkipNotes(files[1..], rest.fates));
  }
  /** The log half of `WalkGrow`, for a loop that may have thrown: one
      file's notes followed by the notes of the rest are the notes of all. */
  lemma {:induction false} NotesGrow(ctx: Context, files: seq<TreeEntry>, run: Run, run1: Run, after: Run)
    requires files != [] && run.calls <= run1.calls && run1.calls <= after.calls
    requires var s := Advance(ctx, run1.calls, |run.calls|, files[0]);
      && s.Some? && s.value.next == |run1.calls|
      && run1.logs == run.logs + SkipNotes([files[0]], [s.value.fate])
    requires var w := Replay(ctx, after.calls, |run1.calls|, files[1..]);
      run1.logs <= after.logs && after.logs[|run1.logs|..] == SkipNotes(files[1..], w.fates)
    ensures var w := Replay(ctx, after.calls, |run.calls|, files);
      && run.calls <= after.calls && run.logs <= after.logs
      && after.logs[|run.logs|..] == SkipNotes(files, w.fates)
  {
    var fate := Advance(ctx, run1.calls, |run.calls|, files[0]).value.fate;
    var rest := Replay(ctx, after.calls, |run1.calls|, files[1..]);
    AdvanceStable(ctx, run1.calls, after.calls, |run.calls|, files[0]);
    assert Replay(ctx, after.calls, |run.calls|, files) == Then(fate, rest);
    KeptFront(files, [fate] + rest.fates);
    assert ([fate] + rest.fates)[1..] == rest.fates;
    PrefixTrans(run.calls, run1.calls, after.calls);
    Splice(run.logs, run1.logs, after.logs, SkipNotes([files[0]], [fate]), SkipNotes(files[1..], rest.fates));
  }


  /** The items and the warnings of a walk are the first file's, then the rest's. */
  lemma {:induction false} KeptFront(files: seq<TreeEntry>, fates: seq<Fate>)
    requires files != [] && fates != [] && |fates| <= |files|
    ensures KeptItems(files, fates) == KeptItems([files[0]], [fates[0]]) + KeptItems(files[1..], fates[1..])
    ensures SkipNotes(files, fates) == SkipNotes([files[0]], [fates[0]]) + SkipNotes(files[1..], fates[1..])
  {
    assert [files[0]][1..] == [] && [fates[0]][1..] == [];
  }

  /** What the loop does to each file, read back from its calls: the items it
      appends are exactly the kept files, in order, each re-pointed at the
      blob that file's own create call returned, and the log gains exactly
      one warning per skipped file, naming it and the refused step. */
  lemma {:induction false} CopyFromReplay(ctx: Context, files: seq<TreeEntry>, items: seq<TreeEntry>, run: Run)
    ensures match CopyFrom(ctx, files, items, run)
      case Crashed(crashed, _) =>
        var w := Replay(ctx, crashed.calls, |run.calls|, files);
        && run.calls <= crashed.calls && run.logs <= crashed.logs
        && crashed.logs[|run.logs|..] == SkipNotes(files, w.fates)
      case Copying(grown, after) =>
        var w := Replay(ctx, after.calls, |run.calls|, files);
        && run.calls <= after.calls && items <= grown && run.logs <= after.logs
        && |w.fates| == |files| && w.end == |after.calls|
        && grown[|items|..] == KeptItems(files, w.fates)
        && after.logs[|run.logs|..] == SkipNotes(files, w.fates)
    decreases |files|
  {
    if files != [] {
      CopyOneReplay(ctx, files[0], items, run);
      match CopyOne(ctx, files[0], items, run)
      case Crashed(crashed, _) =>
        assert crashed.logs[|run.logs|..] == [];
      case Copying(items1, run1) =>
        CopyFromReplay(ctx, files[1..], items1, run1);
        var c := CopyFrom(ctx, files[1..], items1, run1);
        if c.Copying? {
          WalkGrow(ctx, files, items, items1, c.items, run, run1, c.run);
        } else {
          NotesGrow(ctx, files, run, run1, c.run);
        }
    }
  }

  /** When every blob read and create answers, a replay that goes through
      all the files keeps every one of them: the `i`-th file is read by the
      call at `pos + 2 * i` and kept with the blob created by the next call. */
  lemma {:induction false} ReplayAllKept(ctx: Context, calls: seq<Call>, pos: nat, files: seq<TreeEntry>)
    requires pos <= |calls|
    requires forall j :: pos <= j < |calls| ==> TextReply(ctx, calls, j).Ok?
    requires |Replay(ctx, calls, pos, files).fates| == |files|
    ensures var w := Replay(ctx, calls, pos, files);
      && w.end == pos + 2 * |files|
      && forall i :: 0 <= i < |files| ==>
           && calls[pos + 2 * i] == ReadCall(ctx, files[i])
           && w.fates[i] == Kept(TextReply(ctx, calls, pos + 2 * i + 1).value)
  {
    ReplayEndAllOk(ctx, calls, pos, files);
    forall i | 0 <= i < |files|
      ensures calls[pos + 2 * i] == ReadCall(ctx, files[i])
      ensures Replay(ctx, calls, pos, files).fates[i] == Kept(TextReply(ctx, calls, pos + 2 * i + 1).value)
    {
      KeptAt(ctx, calls, pos, files, i);
    }
  }

  /** A replay whose every reply answered takes two calls per file. */
  lemma {:induction false} ReplayEndAllOk(ctx: Context, calls: seq<Call>, pos: nat, files: seq<TreeEntry>)
    requires pos <= |calls|
    requires forall j :: pos <= j < |calls| ==> TextReply(ctx, calls, j).Ok?
    requires |Replay(ctx, calls, pos, files).fates| == |files|
    ensures Replay(ctx, calls, pos, files).end == pos + 2 * |files|
    decreases |files|
  {
    if files != [] {
      var a := Advance(ctx, calls, pos, files[0]);
      assert a.Some?;
      AdvanceAllOk(ctx, calls, pos, files[0]);
      var rest := Replay(ctx, calls, pos + 2, files[1..]);
      assert Replay(ctx, calls, pos, files) == Then(a.value.fate, rest);
      ReplayEndAllOk(ctx, calls, pos + 2, files[1..]);
    }
  }

  /** The `i`-th file of a replay whose every reply answered was read by call
      `pos + 2 * i` and kept at the sha the next call returned. */
  lemma {:induction false} KeptAt(ctx: Context, calls: seq<Call>, pos: nat, files: seq<TreeEntry>, i: nat)
    requires pos <= |calls|
    requires forall j :: pos <= j < |calls| ==> TextReply(ctx, calls, j).Ok?
    requires |Replay(ctx, calls, pos, files).fates| == |files|
    requires i < |files|
    ensures pos + 2 * i + 1 < |calls|
    ensures calls[pos + 2 * i] == ReadCall(ctx, files[i])
    ensures Replay(ctx, calls, pos, files).fates[i] == Kept(TextReply(ctx, calls, pos + 2 * i + 1).value)
    decreases i
  {
    var a := Advance(ctx, calls, pos, files[0]);
    assert a.Some?;
    AdvanceAllOk(ctx, calls, pos, files[0]);
    var rest := Replay(ctx, calls, pos + 2, files[1..]);
    assert Replay(ctx, calls, pos, files) == Then(a.value.fate, rest);
    if i > 0 {
      KeptAt(ctx, calls, pos + 2, files[1..], i - 1);
      assert files[1..][i - 1] == files[i];
    }
  }

  /** A file whose read and upload both answered is kept, at the sha of its
      upload. */
  lemma {:induction false} AdvanceAllOk(ctx: Context, calls: seq<Call>, pos: nat, file: TreeEntry)
    requires Advance(ctx, calls, pos, file).Some?
    requires forall j :: pos <= j < |calls| ==> TextReply(ctx, calls, j).Ok?
    ensures pos + 1 < |calls| && calls[pos] == ReadCall(ctx, file)
    ensures Advance(ctx, calls, pos, file) == Some(Stride(Kept(TextReply(ctx, calls, pos + 1).value), pos + 2))
  {
    assert TextReply(ctx, calls, pos).Ok?;
    assert pos + 1 < |calls|;
    assert TextReply(ctx, calls, pos + 1).Ok?;
  }


  /** When every file is kept, the items are all the files, in order, each
      re-pointed at its own blob. */
  lemma {:induction false} KeptAll(files: seq<TreeEntry>, fates: seq<Fate>, shas: seq<string>)
    requires |fates| == |files| == |shas|
    requires forall i :: 0 <= i < |fates| ==> fates[i] == Kept(shas[i])
    ensures KeptItems(files, fates) == seq(|files|, i requires 0 <= i < |files| => Repointed(files[i], shas[i]))
    decreases |fates|
  {
    if fates != [] {
      KeptAll(files[1..], fates[1..], shas[1..]);
    }
  }


  /** A request with every field makes at least one call, and its run is settled. */
  lemma HandleSettles(body: Body, remote: Remote)
    requires body.Parsed? && HasRequiredFields(body.request)
    ensures Handle(body, remote).calls != []
    ensures Settled(Context(body.request, remote), 0, Handle(body, remote))
  {
    SourceRepoSettles(Context(body.request, remote), Run([], []));
  }

  /** How a complete request is answered: success exactly when the last call
      was the branch update and it succeeded, with status 200, no error and
      two success entries last; otherwise a 400 or 500 with an error last. */
  lemma HandleResponse(body: Body, remote: Remote)
    requires body.Parsed? && HasRequiredFields(body.request)
    ensures var o := Handle(body, remote);
      && o.calls != [] && o.response.logs != []
      && (o.response.success <==>
            Last(o.calls).op.PatchRef? && VerdictAt(Context(body.request, remote), o.calls, |o.calls| - 1) == Passed)
      && (o.response.success ==>
            && o.response.status == 200 && o.response.error == None
            && |o.response.logs| >= 2 && o.response.logs[|o.response.logs| - 2].kind == Success
            && Last(o.response.logs).kind == Success)
      && (!o.response.success ==>
            && o.response.error.Some?
            && (o.response.status == 400 || o.response.status == 500)
            && Last(o.response.logs).kind == Error)
  {
    HandleSettles(body, remote);
  }

  /** The calls of a run settled from its start, one by one. */
  lemma SettledCalls(ctx: Context, o: Outcome)
    requires Settled(ctx, 0, o)
    ensures forall k :: 0 <= k < |o.calls| ==>
      && Signed(ctx.req, k, o.calls[k])
      && Prescribed(ctx, o.calls, k)
      && (k < |o.calls| - 1 ==> Continued(ctx, o.calls, k) && !o.calls[k].op.PatchRef?)
  {
    forall k | 0 <= k < |o.calls|
      ensures Signed(ctx.req, k, o.calls[k]) && Prescribed(ctx, o.calls, k)
      ensures k < |o.calls| - 1 ==> Continued(ctx, o.calls, k) && !o.calls[k].op.PatchRef?
    {
      if k < |o.calls| - 1 {
        assert Proper(ctx, o.calls, k) && Continued(ctx, o.calls, k);
      } else {
        assert Proper(ctx, o.calls, k);
      }
    }
  }

  /** Every call of a complete request goes through the session that owns its
      repository and is the one the protocol prescribes; every call but the
      last let the run go on, so the branch update, if made, is the last call. */
  lemma HandleCalls(body: Body, remote: Remote)
    requires body.Parsed? && HasRequiredFields(body.request)
    ensures var o := Handle(body, remote); var ctx := Context(body.request, remote);
      forall k :: 0 <= k < |o.calls| ==>
        && Signed(body.request, k, o.calls[k])
        && Prescribed(ctx, o.calls, k)
        && (k < |o.calls| - 1 ==> Continued(ctx, o.calls, k) && !o.calls[k].op.PatchRef?)
  {
    HandleSettles(body, remote);
    SettledCalls(Context(body.request, remote), Handle(body, remote));
  }

  /** The tree a complete request creates is what the copy loop's calls
      stand for: the calls between step 4 and the tree creation go, file by
      file, through every blob of the source listing, and the tree holds
      exactly the files whose read and create both answered, in order, each
      re-pointed at the blob its own create call returned. */
  lemma HandleTree(body: Body, remote: Remote)
    requires body.Parsed? && HasRequiredFields(body.request)
    ensures var o := Handle(body, remote); var ctx := Context(body.request, remote);
      forall k :: 0 <= k < |o.calls| && o.calls[k].op.PostTree? ==>
        && 4 <= k && o.calls[1].op.GetTree? && ListingReply(ctx, o.calls, 1).Ok?
        && var files := Blobs(ListingReply(ctx, o.calls, 1).value);
           var w := Replay(ctx, o.calls[..k], 4, files);
           && |w.fates| == |files| && w.end == k
           && o.calls[k].op.tree == KeptItems(files, w.fates)
  {
    var o := Handle(body, remote);
    var ctx := Context(body.request, remote);
    HandleCalls(body, remote);
    forall k | 0 <= k < |o.calls| && o.calls[k].op.PostTree?
      ensures 4 <= k && o.calls[1].op.GetTree? && ListingReply(ctx, o.calls, 1).Ok?
      ensures var files := Blobs(ListingReply(ctx, o.calls, 1).value);
        var w := Replay(ctx, o.calls[..k], 4, files);
        && |w.fates| == |files| && w.end == k
        && o.calls[k].op.tree == KeptItems(files, w.fates)
    {
      assert Prescribed(ctx, o.calls, k);
      assert o.calls[..k][1] == o.calls[1];
    }
  }

  /** The warnings a complete request logs are exactly the loop's: one per
      skipped file, in the order of the files, read back from the calls
      after step 4; a run that never listed the source tree logs none. */
  lemma HandleWarnings(body: Body, remote: Remote)
    requires body.Parsed? && HasRequiredFields(body.request)
    ensures var o := Handle(body, remote); var ctx := Context(body.request, remote);
      if |o.calls| >= 2 && o.calls[1].op.GetTree? && ListingReply(ctx, o.calls, 1).Ok? then
        var files := Blobs(ListingReply(ctx, o.calls, 1).value);
        Warnings(o.response.logs) == SkipNotes(files, Replay(ctx, o.calls, 4, files).fates)
      else Warnings(o.response.logs) == []
  {
    SourceRepoSettles(Context(body.request, remote), Run([], []));
  }

  /** A request that reaches the tree creation accounts for every listed blob
      once: the tree's items and the warnings together number the blobs, and
      the warnings are the skip notes of the same walk that built the tree. */
  lemma HandleWarningCount(body: Body, remote: Remote)
    requires body.Parsed? && HasRequiredFields(body.request)
    ensures var o := Handle(body, remote); var ctx := Context(body.request, remote);
      forall k :: 0 <= k < |o.calls| && o.calls[k].op.PostTree? ==>
        && 4 <= k && o.calls[1].op.GetTree? && ListingReply(ctx, o.calls, 1).Ok?
        && var files := Blobs(ListingReply(ctx, o.calls, 1).value);
           && Warnings(o.response.logs) == SkipNotes(files, Replay(ctx, o.calls[..k], 4, files).fates)
           && |o.calls[k].op.tree| + |Warnings(o.response.logs)| == |files|
  {
    var o := Handle(body, remote);
    var ctx := Context(body.request, remote);
    HandleTree(body, remote);
    HandleWarnings(body, remote);
    forall k | 0 <= k < |o.calls| && o.calls[k].op.PostTree?
      ensures 4 <= k && o.calls[1].op.GetTree? && ListingReply(ctx, o.calls, 1).Ok?
      ensures var files := Blobs(ListingReply(ctx, o.calls, 1).value);
        && Warnings(o.response.logs) == SkipNotes(files, Replay(ctx, o.calls[..k], 4, files).fates)
        && |o.calls[k].op.tree| + |Warnings(o.response.logs)| == |files|
    {
      var files := Blobs(ListingReply(ctx, o.calls, 1).value);
      assert o.calls[..k] <= o.calls;
      ReplayStable(ctx, o.calls[..k], o.calls, 4, files);
    }
  }

  /** A run settled from its start whose every call answered succeeds, and
      the tree it creates holds every blob of the source listing, in order:
      the `i`-th file is read by call `4 + 2 * i` and re-pointed at the blob
      created by call `5 + 2 * i`; the tree, the commit and the branch update
      are the last three calls. */
  ghost predicate CopiedAll(ctx: Context, o: Outcome) {
    && o.response.success
    && |o.calls| >= 7 && o.calls[1].op.GetTree? && ListingReply(ctx, o.calls, 1).Ok?
    && var files := Blobs(ListingReply(ctx, o.calls, 1).value);
       && |o.calls| == 7 + 2 * |files|
       && o.calls[4 + 2 * |files|].op.PostTree?
       && (forall i :: 0 <= i < |files| ==> o.calls[4 + 2 * i] == ReadCall(ctx, files[i]))
       && |o.calls[4 + 2 * |files|].op.tree| == |files|
       && (forall i :: 0 <= i < |files| ==>
             && TextReply(ctx, o.calls, 5 + 2 * i).Ok?
             && o.calls[4 + 2 * |files|].op.tree[i] == Repointed(files[i], TextReply(ctx, o.calls, 5 + 2 * i).value))
  }

  /** A run settled from its start whose last call succeeded ended with the
      tree, the commit and the branch update, and the tree holds the items
      the loop's calls stand for. */
  lemma {:induction false} PassedEnd(ctx: Context, o: Outcome)
    requires Settled(ctx, 0, o) && VerdictAt(ctx, o.calls, |o.calls| - 1) == Passed
    ensures o.response.success && |o.calls| >= 7
    ensures o.calls[|o.calls| - 3].op.PostTree?
    ensures Inventoried(ctx, o.calls[..|o.calls| - 3], o.calls[|o.calls| - 3].op.tree)
  {
    var n := |o.calls|;
    assert o.calls[n - 1].op.PatchRef?;
    assert Proper(ctx, o.calls, n - 2);
    assert Proper(ctx, o.calls, n - 3);
  }

  /** When every read and upload of a complete replay answered, the loop read
      each file once, in order, and the kept items re-point each file at the
      sha of its own upload. */
  lemma {:induction false} KeptUploads(ctx: Context, calls: seq<Call>, files: seq<TreeEntry>)
    requires 4 <= |calls|
    requires forall j :: 4 <= j < |calls| ==> TextReply(ctx, calls, j).Ok?
    requires |Replay(ctx, calls, 4, files).fates| == |files| && Replay(ctx, calls, 4, files).end == |calls|
    ensures |calls| == 4 + 2 * |files|
    ensures forall i :: 0 <= i < |files| ==> calls[4 + 2 * i] == ReadCall(ctx, files[i])
    ensures var kept := KeptItems(files, Replay(ctx, calls, 4, files).fates);
      && |kept| == |files|
      && forall i :: 0 <= i < |files| ==> kept[i] == Repointed(files[i], TextReply(ctx, calls, 5 + 2 * i).value)
  {
    ReplayAllKept(ctx, calls, 4, files);
    var w := Replay(ctx, calls, 4, files);
    var shas := seq(|files|, i requires 0 <= i < |files| => TextReply(ctx, calls, 5 + 2 * i).value);
    KeptAll(files, w.fates, shas);
  }


  /** An inventory whose every read and upload answered holds every listed
      blob, each re-pointed at the sha of its own upload. */
  lemma {:induction false} InventoryOfPrefix(ctx: Context, calls: seq<Call>, tree: seq<TreeEntry>)
    requires Inventoried(ctx, calls, tree)
    requires forall j :: 4 <= j < |calls| ==> TextReply(ctx, calls, j).Ok?
    ensures var files := Blobs(ListingReply(ctx, calls, 1).value);
      && |calls| == 4 + 2 * |files| && |tree| == |files|
      && (forall i :: 0 <= i < |files| ==> calls[4 + 2 * i] == ReadCall(ctx, files[i]))
      && (forall i :: 0 <= i < |files| ==> tree[i] == Repointed(files[i], TextReply(ctx, calls, 5 + 2 * i).value))
  {
    KeptUploads(ctx, calls, Blobs(ListingReply(ctx, calls, 1).value));
  }

  /** The reads and the uploads KeptUploads speaks of read the same on
      any longer trace. */
  lemma {:induction false} CopiedOnLonger(ctx: Context, calls: seq<Call>, longer: seq<Call>,
                                          files: seq<TreeEntry>, tree: seq<TreeEntry>)
    requires calls <= longer && |calls| == 4 + 2 * |files|
    requires forall i :: 0 <= i < |files| ==> calls[4 + 2 * i] == ReadCall(ctx, files[i])
    requires forall j :: 4 <= j < |calls| ==> TextReply(ctx, calls, j).Ok?
    requires |tree| == |files|
    requires forall i :: 0 <= i < |files| ==> tree[i] == Repointed(files[i], TextReply(ctx, calls, 5 + 2 * i).value)
    ensures forall i :: 0 <= i < |files| ==> longer[4 + 2 * i] == ReadCall(ctx, files[i])
    ensures forall i :: 0 <= i < |files| ==>
      && TextReply(ctx, longer, 5 + 2 * i).Ok?
      && tree[i] == Repointed(files[i], TextReply(ctx, longer, 5 + 2 * i).value)
  {
    forall i | 0 <= i < |files|
      ensures longer[4 + 2 * i] == ReadCall(ctx, files[i])
      ensures TextReply(ctx, longer, 5 + 2 * i) == TextReply(ctx, calls, 5 + 2 * i)
    {
      SameReply(ctx, calls, longer, 4 + 2 * i);
      SameReply(ctx, calls, longer, 5 + 2 * i);
    }
  }

  /** Replies after step 4 that all answered on a trace answered on each of
      its prefixes. */
  lemma {:induction false} OkOnPrefix(ctx: Context, calls: seq<Call>, longer: seq<Call>)
    requires calls <= longer
    requires forall j :: 4 <= j < |longer| ==> TextReply(ctx, longer, j).Ok?
    ensures forall j :: 4 <= j < |calls| ==> TextReply(ctx, calls, j).Ok?
  {
    forall j | 4 <= j < |calls|
      ensures TextReply(ctx, calls, j).Ok?
    {
      SameReply(ctx, calls, longer, j);
    }
  }

  /** The last step of AllOkSettled, stated on the end of the run alone. */
  lemma {:induction false} CopiedFromEnd(ctx: Context, o: Outcome)
    requires o.response.success && |o.calls| >= 7
    requires o.calls[|o.calls| - 3].op.PostTree?
    requires Inventoried(ctx, o.calls[..|o.calls| - 3], o.calls[|o.calls| - 3].op.tree)
    requires forall j :: 4 <= j < |o.calls| ==> TextReply(ctx, o.calls, j).Ok?
    ensures CopiedAll(ctx, o)
  {
    var k := |o.calls| - 3;
    var calls := o.calls[..k];
    SameReply(ctx, calls, o.calls, 1);
    OkOnPrefix(ctx, calls, o.calls);
    InventoryOfPrefix(ctx, calls, o.calls[k].op.tree);
    var files := Blobs(ListingReply(ctx, calls, 1).value);
    CopiedOnLonger(ctx, calls, o.calls, files, o.calls[k].op.tree);
  }

  lemma {:induction false} AllOkSettled(ctx: Context, o: Outcome)
    requires Settled(ctx, 0, o)
    requires forall j :: 0 <= j < |o.calls| ==> VerdictAt(ctx, o.calls, j) == Passed
    ensures CopiedAll(ctx, o)
  {
    assert VerdictAt(ctx, o.calls, |o.calls| - 1) == Passed;
    PassedEnd(ctx, o);
    forall j | 4 <= j < |o.calls|
      ensures TextReply(ctx, o.calls, j).Ok?
    {
      assert Proper(ctx, o.calls, j) && VerdictAt(ctx, o.calls, j) == Passed;
    }
    CopiedFromEnd(ctx, o);
  }

  /** A complete request whose every call answered, each on the channel it
      uses (the listing for the tree read, the text for every other call),
      copies every file. */
  lemma HandleAllOk(body: Body, remote: Remote)
    requires body.Parsed? && HasRequiredFields(body.request)
    requires var o := Handle(body, remote); var ctx := Context(body.request, remote);
      forall j :: 0 <= j < |o.calls| ==> VerdictAt(ctx, o.calls, j) == Passed
    ensures CopiedAll(Context(body.request, remote), Handle(body, remote))
  {
    HandleSettles(body, remote);
    AllOkSettled(Context(body.request, remote), Handle(body, remote));
  }

  // ---------------------------------------------------------------------------
  // The handler as written
  // ---------------------------------------------------------------------------

  /** Where steps 1-4 of the handler body left it: returned early, or ready to
      copy `files` onto `destBranch`, whose tip is `baseSha`. */
  datatype Stage =
    | Stopped(outcome: Outcome)
    | Ready(run: Run, files: seq<TreeEntry>, destBranch: string, baseSha: string)

  /** A request through a session: signed with the session's token, recorded
      in the trace, answered by the remote. */
  method Fetch(remote: Remote, session: Session, op: Op, calls: seq<Call>) returns (reply: Reply<string>, after: seq<Call>)
    ensures after == calls + [Call(session.token, op)]
    ensures reply == remote.text(|calls|, Call(session.token, op))
  {
    var call := session.Sign(op);
    reply := remote.text(|calls|, call);
    after := calls + [call];
  }

  /** The same for the tree read, whose reply is a listing. */
  method FetchListing(remote: Remote, session: Session, op: Op, calls: seq<Call>)
    returns (reply: Reply<seq<TreeEntry>>, after: seq<Call>)
    ensures after == calls + [Call(session.token, op)]
    ensures reply == remote.listing(|calls|, Call(session.token, op))
  {
    var call := session.Sign(op);
    reply := remote.listing(|calls|, call);
    after := calls + [call];
  }

  /** Steps 1-4 of the handler body, with its log accumulator and early returns. */
  method ReadRepos(req: Request, remote: Remote, ghSource: Session, ghDest: Session) returns (s: Stage)
    requires ghSource == Session(SourceToken(req)) && ghDest == Session(DestToken(req))
    ensures s.Stopped? ==> s.outcome == SourceRepoStep(Context(req, remote), Run([], []))
    ensures s.Ready? ==>
      && Reached(Context(req, remote), s.run, CopyFiles(s.files, s.destBranch, s.baseSha))
      && SourceRepoStep(Context(req, remote), Run([], []))
         == CopyStep(Context(req, remote), s.run, s.files, s.destBranch, s.baseSha)
  {
    ghost var ctx := Context(req, remote);
    var logs: seq<Note> := [];
    var calls: seq<Call> := [];

    // 1. Source repository default branch.
    ghost var at := Run(logs, calls);
    logs := logs + [LogEntry(ReadingSourceInfo, Info)];
    var sourceInfo;
    sourceInfo, calls := Fetch(remote, ghSource, GetRepo(req.sourceOwner, req.sourceRepo), calls);
    if sourceInfo.Threw? {
      assert SourceRepoStep(ctx, at) == Outcome(Caught(logs, sourceInfo.message), calls);
      return Stopped(Outcome(Caught(logs, sourceInfo.message), calls));
    }
    if sourceInfo.NotOk? {
      logs := logs + [LogEntry(SourceInfoFailed(sourceInfo.status), Error)];
      assert SourceRepoStep(ctx, at) == Outcome(Response(400, false, Some(SourceRepoError), logs), calls);
      return Stopped(Outcome(Response(400, false, Some(SourceRepoError), logs), calls));
    }
    var sourceBranch := sourceInfo.value;
    logs := logs + [LogEntry(SourceBranchFound(sourceBranch), Success)];
    assert SourceRepoStep(ctx, at) == SourceTreeStep(ctx, Run(logs, calls), sourceBranch);
    SourceRepoReaches(ctx, at);
    at := Run(logs, calls);

    // 2. Source tree, recursively; keep the blobs.
    logs := logs + [LogEntry(ReadingSourceTree, Info)];
    var treeRes;
    treeRes, calls := FetchListing(remote, ghSource, GetTree(req.sourceOwner, req.sourceRepo, sourceBranch), calls);
    if treeRes.Threw? {
      assert SourceTreeStep(ctx, at, sourceBranch) == Outcome(Caught(logs, treeRes.message), calls);
      return Stopped(Outcome(Caught(logs, treeRes.message), calls));
    }
    if treeRes.NotOk? {
      logs := logs + [LogEntry(SourceTreeFailed, Error)];
      assert SourceTreeStep(ctx, at, sourceBranch) == Outcome(Response(400, false, Some(TreeError), logs), calls);
      return Stopped(Outcome(Response(400, false, Some(TreeError), logs), calls));
    }
    var files := Blobs(treeRes.value);
    logs := logs + [LogEntry(FilesFound(|files|), Success)];
    assert SourceTreeStep(ctx, at, sourceBranch) == DestRepoStep(ctx, Run(logs, calls), files);

    SourceTreeReaches(ctx, at, sourceBranch);
    s := ReadDest(req, remote, ghDest, logs, calls, files);
  }

  /** Steps 3-4 of the handler body, from the run steps 1-2 left. */
  method ReadDest(req: Request, remote: Remote, ghDest: Session,
                  logs0: seq<Note>, calls0: seq<Call>, files: seq<TreeEntry>) returns (s: Stage)
    requires ghDest == Session(DestToken(req))
    requires Reached(Context(req, remote), Run(logs0, calls0), DestRepo(files))
    ensures s.Stopped? ==> s.outcome == DestRepoStep(Context(req, remote), Run(logs0, calls0), files)
    ensures s.Ready? ==>
      && Reached(Context(req, remote), s.run, CopyFiles(s.files, s.destBranch, s.baseSha))
      && DestRepoStep(Context(req, remote), Run(logs0, calls0), files)
         == CopyStep(Context(req, remote), s.run, s.files, s.destBranch, s.baseSha)
  {
    ghost var ctx := Context(req, remote);
    var logs := logs0;
    var calls := calls0;

    // 3. Destination repository default branch.
    ghost var at := Run(logs, calls);
    logs := logs + [LogEntry(ReadingDestInfo, Info)];
    var destInfo;
    destInfo, calls := Fetch(remote, ghDest, GetRepo(req.destOwner, req.destRepo), calls);
    if destInfo.Threw? {
      assert DestRepoStep(ctx, at, files) == Outcome(Caught(logs, destInfo.message), calls);
      return Stopped(Outcome(Caught(logs, destInfo.message), calls));
    }
    if destInfo.NotOk? {
      logs := logs + [LogEntry(DestInfoFailed(destInfo.status), Error)];
      assert DestRepoStep(ctx, at, files) == Outcome(Response(400, false, Some(DestRepoError), logs), calls);
      return Stopped(Outcome(Response(400, false, Some(DestRepoError), logs), calls));
    }
    var destBranch := destInfo.value;
    logs := logs + [LogEntry(DestBranchFound(destBranch), Success)];
    assert DestRepoStep(ctx, at, files) == DestRefStep(ctx, Run(logs, calls), files, destBranch);
    DestRepoReaches(ctx, at, files);
    at := Run(logs, calls);

    // 4. Destination branch tip.
    logs := logs + [LogEntry(ReadingDestRef, Info)];
    var destRef;
    destRef, calls := Fetch(remote, ghDest, GetRef(req.destOwner, req.destRepo, destBranch), calls);
    if destRef.Threw? {
      assert DestRefStep(ctx, at, files, destBranch) == Outcome(Caught(logs, destRef.message), calls);
      return Stopped(Outcome(Caught(logs, destRef.message), calls));
    }
    if destRef.NotOk? {
      logs := logs + [LogEntry(DestRefFailed, Error)];
      assert DestRefStep(ctx, at, files, destBranch) == Outcome(Response(400, false, Some(DestRefError), logs), calls);
      return Stopped(Outcome(Response(400, false, Some(DestRefError), logs), calls));
    }
    assert DestRefStep(ctx, at, files, destBranch) == CopyStep(ctx, Run(logs, calls), files, destBranch, destRef.value);
    DestRefReaches(ctx, at, files, destBranch);
    return Ready(Run(logs, calls), files, destBranch, destRef.value);
  }

  /** Step 5 of the handler body: the loop over the files. A failed read or
      create is logged as a warning and the file is skipped. */
  method CopyBlobs(req: Request, remote: Remote, ghSource: Session, ghDest: Session,
                   files: seq<TreeEntry>, logs0: seq<Note>, calls0: seq<Call>) returns (c: Copy)
    requires ghSource == Session(SourceToken(req)) && ghDest == Session(DestToken(req))
    ensures c == CopyFrom(Context(req, remote), files, [], Run(logs0, calls0))
  {
    ghost var ctx := Context(req, remote);
    var logs := logs0;
    var calls := calls0;
    var newTreeItems: seq<TreeEntry> := [];
    var i := 0;
    while i < |files|
      invariant 0 <= i <= |files|
      invariant CopyFrom(ctx, files, [], Run(logs0, calls0)) == CopyFrom(ctx, files[i..], newTreeItems, Run(logs, calls))
    {
      var file := files[i];
      assert files[i..][0] == file && files[i..][1..] == files[i + 1..];
      ghost var before := Run(logs, calls);
      var blobRes;
      blobRes, calls := Fetch(remote, ghSource, GetBlob(req.sourceOwner, req.sourceRepo, file.sha), calls);
      if blobRes.Threw? {
        return Crashed(Run(logs, calls), blobRes.message);
      }
      if blobRes.NotOk? {
        logs := logs + [LogEntry(ReadWarning(file.path), Warning)];
        i := i + 1;
        continue;
      }
      var newBlobRes;
      newBlobRes, calls := Fetch(remote, ghDest, PostBlob(req.destOwner, req.destRepo, blobRes.value), calls);
      if newBlobRes.Threw? {
        return Crashed(Run(logs, calls), newBlobRes.message);
      }
      if newBlobRes.NotOk? {
        logs := logs + [LogEntry(CreateWarning(file.path), Warning)];
        i := i + 1;
        continue;
      }
      newTreeItems := newTreeItems + [TreeEntry(file.path, file.mode, "blob", newBlobRes.value)];
      i := i + 1;
    }
    return Copying(newTreeItems, Run(logs, calls));
  }

  /** Steps 6-8 of the handler body. */
  method PublishTree(req: Request, remote: Remote, ghDest: Session, newTreeItems: seq<TreeEntry>,
                     destBranch: string, baseCommitSha: string, logs0: seq<Note>, calls0: seq<Call>)
    returns (response: Response, calls: seq<Call>)
    requires ghDest == Session(DestToken(req))
    requires Reached(Context(req, remote), Run(logs0, calls0), NewTree(newTreeItems, destBranch, baseCommitSha))
    ensures Outcome(response, calls)
      == TreeStep(Context(req, remote), Run(logs0, calls0), newTreeItems, destBranch, baseCommitSha)
  {
    ghost var ctx := Context(req, remote);
    var logs := logs0;
    calls := calls0;
    ghost var at := Run(logs, calls);

    // 6. A new tree, not based on the destination's previous tree.
    logs := logs + [LogEntry(CreatingTree, Info)];
    var newTree;
    newTree, calls := Fetch(remote, ghDest, PostTree(req.destOwner, req.destRepo, newTreeItems), calls);
    if newTree.Threw? {
      assert TreeStep(ctx, at, newTreeItems, destBranch, baseCommitSha) == Outcome(Caught(logs, newTree.message), calls);
      return Caught(logs, newTree.message), calls;
    }
    if newTree.NotOk? {
      logs := logs + [LogEntry(TreeFailed(newTree.text), Error)];
      assert TreeStep(ctx, at, newTreeItems, destBranch, baseCommitSha) == Outcome(Response(500, false, Some(CreateTreeError), logs), calls);
      return Response(500, false, Some(CreateTreeError), logs), calls;
    }
    logs := logs + [LogEntry(TreeCreated, Success)];
    ReadsDoneStable(ctx, calls0, calls, destBranch, baseCommitSha);
    assert TreeStep(ctx, at, newTreeItems, destBranch, baseCommitSha)
        == CommitStep(ctx, Run(logs, calls), newTree.value, destBranch, baseCommitSha);
    at := Run(logs, calls);

    // 7. The commit, whose only parent is the destination tip.
    logs := logs + [LogEntry(CreatingCommit, Info)];
    var commit;
    commit, calls := Fetch(remote, ghDest,
      PostCommit(req.destOwner, req.destRepo, CommitMessage(req), newTree.value, [baseCommitSha]), calls);
    if commit.Threw? {
      assert CommitStep(ctx, at, newTree.value, destBranch, baseCommitSha) == Outcome(Caught(logs, commit.message), calls);
      return Caught(logs, commit.message), calls;
    }
    if commit.NotOk? {
      logs := logs + [LogEntry(CommitError, Error)];
      assert CommitStep(ctx, at, newTree.value, destBranch, baseCommitSha) == Outcome(Response(500, false, Some(CommitError), logs), calls);
      return Response(500, false, Some(CommitError), logs), calls;
    }
    logs := logs + [LogEntry(CommitCreated(commit.value), Success)];
    assert CommitStep(ctx, at, newTree.value, destBranch, baseCommitSha)
        == BranchStep(ctx, Run(logs, calls), commit.value, destBranch);
    at := Run(logs, calls);

    // 8. Force-update the branch.
    logs := logs + [LogEntry(UpdatingBranch, Info)];
    var updateRef;
    updateRef, calls := Fetch(remote, ghDest, PatchRef(req.destOwner, req.destRepo, destBranch, commit.value, true), calls);
    if updateRef.Threw? {
      assert BranchStep(ctx, at, commit.value, destBranch) == Outcome(Caught(logs, updateRef.message), calls);
      return Caught(logs, updateRef.message), calls;
    }
    if updateRef.NotOk? {
      logs := logs + [LogEntry(UpdateError, Error)];
      assert BranchStep(ctx, at, commit.value, destBranch) == Outcome(Response(500, false, Some(UpdateError), logs), calls);
      return Response(500, false, Some(UpdateError), logs), calls;
    }
    logs := logs + [LogEntry(BranchUpdated, Success)];
    logs := logs + [LogEntry(RemixComplete, Success)];
    assert BranchStep(ctx, at, commit.value, destBranch) == Outcome(Response(200, true, None, logs), calls);
    return Response(200, true, None, logs), calls;
  }

  /** Steps 5-8 of the handler body: the copy loop, the count of copied
      files, then the tree, the commit and the branch update. */
  method Transfer(req: Request, remote: Remote, ghSource: Session, ghDest: Session,
                  run: Run, files: seq<TreeEntry>, destBranch: string, baseCommitSha: string)
    returns (response: Response, calls: seq<Call>)
    requires ghSource == Session(SourceToken(req)) && ghDest == Session(DestToken(req))
    requires Reached(Context(req, remote), run, CopyFiles(files, destBranch, baseCommitSha))
    ensures Outcome(response, calls) == CopyStep(Context(req, remote), run, files, destBranch, baseCommitSha)
  {
    ghost var ctx := Context(req, remote);
    var start := run.Log(TransferringBlobs, Info);
    var copy := CopyBlobs(req, remote, ghSource, ghDest, files, start.logs, start.calls);
    LoopingStarts(ctx, run, files, destBranch, baseCommitSha);
    CopyFromCopies(ctx, files, 0, [], start);
    assert files[0..] == files;
    if copy.Crashed? {
      return Caught(copy.run.logs, copy.message), copy.run.calls;
    }
    var logs := copy.run.logs + [LogEntry(BlobsTransferred(|copy.items|), Success)];
    ReadsDoneStable(ctx, run.calls, copy.run.calls, destBranch, baseCommitSha);
    CopyFromReplay(ctx, files, [], start);
    SameReply(ctx, run.calls, copy.run.calls, 1);
    assert copy.items[0..] == copy.items;
    assert CopyStep(ctx, run, files, destBranch, baseCommitSha)
        == TreeStep(ctx, Run(logs, copy.run.calls), copy.items, destBranch, baseCommitSha);
    response, calls := PublishTree(req, remote, ghDest, copy.items, destBranch, baseCommitSha, logs, copy.run.calls);
  }

  /** The handler body: reads the body, checks the fields, builds the two
      sessions, runs the eight steps, and turns any exception into the
      catch-all answer. */
  method Serve(body: Body, remote: Remote) returns (response: Response, calls: seq<Call>)
    ensures Outcome(response, calls) == Handle(body, remote)
  {
    if body.Unparsable? {
      return Caught([], body.message), [];
    }
    var req := body.request;
    var effectiveSourceToken := Or(req.sourceToken, req.token);
    var effectiveDestToken := Or(req.destToken, req.token);
    if || req.sourceOwner == "" || req.sourceRepo == "" || req.destOwner == "" || req.destRepo == ""
       || effectiveSourceToken == "" || effectiveDestToken == ""
    {
      return Response(400, false, Some(MissingFields), []), [];
    }
    var ghSource := Session(effectiveSourceToken);
    var ghDest := Session(effectiveDestToken);

    var stage := ReadRepos(req, remote, ghSource, ghDest);
    if stage.Stopped? {
      return stage.outcome.response, stage.outcome.calls;
    }
    response, calls := Transfer(req, remote, ghSource, ghDest, stage.run, stage.files, stage.destBranch, stage.baseSha);
  }
}

/** The page that starts a remix: it reads two GitHub URLs and one or two
    tokens, checks them, sends one request to the `github-remix` edge
    function, and shows the server's log framed by its own entries.

    `ParseGitHubUrl` is the regular expression
    `github\.com\/([^/]+)\/([^/\s?.]+)` as a scanner that tries every start
    position in turn, and `Occurs` says declaratively where the pattern can
    match. `Page` holds the page's state and `HandleRemix` is its handler. */
module IndexPage {
  import opened Common
  import GithubRemix

  // ---------------------------------------------------------------------------
  // Reading a GitHub URL
  // ---------------------------------------------------------------------------

  /** The owner and repository name read from a URL. */
  datatype Repo = Repo(owner: string, repo: string)

  /** JavaScript's `\s`: the white space and line terminator characters. */
  predicate IsSpace(c: char) {
    || c == ' ' || c == '\t' || c == '\n' || c == '\U{000B}' || c == '\U{000C}' || c == '\r'
    || c == '\U{00A0}' || c == '\U{1680}' || ('\U{2000}' <= c <= '\U{200A}')
    || c == '\U{2028}' || c == '\U{2029}' || c == '\U{202F}' || c == '\U{205F}'
    || c == '\U{3000}' || c == '\U{FEFF}'
  }

  /** The class `[^/\s?.]` of the repository group. */
  predicate RepoChar(c: char) {
    c != '/' && !IsSpace(c) && c != '?' && c != '.'
  }

  /** The literal part `github\.com\/` of the pattern. */
  const Host: string := "github.com/"

  /** Where the run of characters other than '/' that starts at `j` ends. */
  function SlashFrom(s: string, j: nat): (e: nat)
    requires j <= |s|
    ensures j <= e <= |s|
    ensures forall m :: j <= m < e ==> s[m] != '/'
    ensures e < |s| ==> s[e] == '/'
    decreases |s| - j
  {
    if j == |s| || s[j] == '/' then j else SlashFrom(s, j + 1)
  }

  /** Where the run of `RepoChar` characters that starts at `j` ends. */
  function RepoEnd(s: string, j: nat): (e: nat)
    requires j <= |s|
    ensures j <= e <= |s|
    ensures forall m :: j <= m < e ==> RepoChar(s[m])
    ensures e < |s| ==> !RepoChar(s[e])
    decreases |s| - j
  {
    if j == |s| || !RepoChar(s[j]) then j else RepoEnd(s, j + 1)
  }

  /** The pattern tried at position `i`: both groups are greedy, and the owner
      group can only end at a '/', so each group is the longest run its class
      allows, and each must be non-empty. */
  function MatchAt(s: string, i: nat): (r: Option<Repo>)
    requires i <= |s|
    ensures r.Some? ==>
      && r.value.owner != [] && (forall m :: 0 <= m < |r.value.owner| ==> r.value.owner[m] != '/')
      && r.value.repo != [] && (forall m :: 0 <= m < |r.value.repo| ==> RepoChar(r.value.repo[m]))
  {
    if |s| - i < |Host| || s[i..i + |Host|] != Host then None
    else
      var o := i + |Host|;
      var slash := SlashFrom(s, o);
      if slash == o || slash == |s| then None
      else
        var e := RepoEnd(s, slash + 1);
        if e == slash + 1 then None
        else Some(Repo(s[o..slash], s[slash + 1..e]))
  }

  /** `String.prototype.match` with a non-global pattern: the match that
      starts leftmost, trying `i`, `i + 1`, ... */
  function SearchFrom(s: string, i: nat): (r: Option<Repo>)
    requires i <= |s|
    decreases |s| - i
  {
    if i == |s| then None
    else if MatchAt(s, i).Some? then MatchAt(s, i)
    else SearchFrom(s, i + 1)
  }

  /** `repo.replace(/\.git$/, "")`: drops a trailing ".git". */
  function StripGit(repo: string): string {
    if |repo| >= 4 && repo[|repo| - 4..] == ".git" then repo[..|repo| - 4] else repo
  }

  /** `parseGitHubUrl`: the owner and the repository of the first GitHub
      address in `url`, or `None` (`null`). */
  function ParseGitHubUrl(url: string): (r: Option<Repo>)
  {
    match SearchFrom(url, 0)
    case None => None
    case Some(m) => Some(Repo(m.owner, StripGit(m.repo)))
  }

  /** The pattern can match at `i`: the host, then a non-empty run without
      '/', then '/', then a character of the repository class. */
  ghost predicate Occurs(s: string, i: nat)
    requires i <= |s|
  {
    exists slash: nat :: OccursWith(s, i, slash)
  }

  /** `Occurs`, with the position of the slash after the owner. */
  predicate OccursWith(s: string, i: nat, slash: nat)
    requires i <= |s|
  {
    && i + |Host| < slash && slash + 1 < |s|
    && s[i..i + |Host|] == Host
    && (forall m :: i + |Host| <= m < slash ==> s[m] != '/')
    && s[slash] == '/' && RepoChar(s[slash + 1])
  }

  /** The pattern matches at `i` exactly when it can. */
  lemma MatchAtOccurs(s: string, i: nat)
    requires i <= |s|
    ensures MatchAt(s, i).Some? <==> Occurs(s, i)
  {
    if MatchAt(s, i).Some? {
      var slash := SlashFrom(s, i + |Host|);
      assert OccursWith(s, i, slash);
    }
    if Occurs(s, i) {
      var slash: nat :| OccursWith(s, i, slash);
      SlashFromFirst(s, i + |Host|, slash);
      assert RepoEnd(s, slash + 1) != slash + 1;
    }
  }

  /** The repository group ends at the first character outside its class. */
  lemma {:induction false} RepoEndLast(s: string, j: nat, e: nat)
    requires j <= e < |s| && !RepoChar(s[e])
    requires forall m :: j <= m < e ==> RepoChar(s[m])
    ensures RepoEnd(s, j) == e
    decreases e - j
  {
    if j < e {
      RepoEndLast(s, j + 1, e);
    }
  }

  /** The owner group ends at the first '/'. */
  lemma {:induction false} SlashFromFirst(s: string, j: nat, slash: nat)
    requires j <= slash < |s| && s[slash] == '/'
    requires forall m :: j <= m < slash ==> s[m] != '/'
    ensures SlashFrom(s, j) == slash
    decreases slash - j
  {
    if j < slash {
      SlashFromFirst(s, j + 1, slash);
    }
  }

  /** The scan finds the leftmost position where the pattern can match, if
      there is one at or after `i`. */
  lemma {:induction false} SearchFromLeftmost(s: string, i: nat)
    requires i <= |s|
    ensures SearchFrom(s, i).None? <==> forall k :: i <= k <= |s| ==> !Occurs(s, k)
    ensures SearchFrom(s, i).Some? ==>
      exists k :: i <= k < |s| && Occurs(s, k) && SearchFrom(s, i) == MatchAt(s, k)
        && forall j :: i <= j < k ==> !Occurs(s, j)
    decreases |s| - i
  {
    MatchAtOccurs(s, i);
    if i < |s| && MatchAt(s, i).None? {
      SearchFromLeftmost(s, i + 1);
      if SearchFrom(s, i).Some? {
        var k :| i + 1 <= k < |s| && Occurs(s, k) && SearchFrom(s, i + 1) == MatchAt(s, k)
          && forall j :: i + 1 <= j < k ==> !Occurs(s, j);
        assert forall j :: i <= j < k ==> !Occurs(s, j);
      }
    }
  }

  /** A repository name read by the pattern holds no '.', so the `.git`
      strip never changes it. */
  lemma StripGitUnused(repo: string)
    requires forall m :: 0 <= m < |repo| ==> RepoChar(repo[m])
    ensures StripGit(repo) == repo
  {
    if |repo| >= 4 {
      assert RepoChar(repo[|repo| - 4]);
      assert repo[|repo| - 4..][0] != '.';
    }
  }

  /** What the strip was written for: a name followed by ".git" loses it. */
  lemma StripGitSuffix(name: string)
    ensures StripGit(name + ".git") == name
  {
    var s := name + ".git";
    assert s[|s| - 4..] == ".git";
    assert s[..|s| - 4] == name;
  }

  /** `parseGitHubUrl` returns null exactly when the pattern can match nowhere. */
  lemma ParseNone(url: string)
    ensures ParseGitHubUrl(url).None? <==> forall k :: 0 <= k <= |url| ==> !Occurs(url, k)
  {
    SearchFromLeftmost(url, 0);
  }

  /** At `k`, `s` spells the host, `r.owner`, '/' and `r.repo`, and the
      character after the repository, if any, cannot extend it. */
  predicate Spells(s: string, k: nat, r: Repo) {
    var o := k + |Host|;
    var slash := o + |r.owner|;
    var e := slash + 1 + |r.repo|;
    && e <= |s|
    && s[k..o] == Host && s[o..slash] == r.owner && s[slash] == '/' && s[slash + 1..e] == r.repo
    && (e < |s| ==> !RepoChar(s[e]))
  }

  /** A match at `k` spells out the host, the owner, '/', and the
      repository, and the repository group cannot be extended. */
  lemma MatchAtSpells(s: string, k: nat)
    requires k <= |s| && MatchAt(s, k).Some?
    ensures Spells(s, k, MatchAt(s, k).value)
  {
  }

  /** A parsed URL names the leftmost place where the pattern matches: the
      host, the owner, '/', and the repository, each group as long as its
      class allows; the owner holds no '/', the repository no '/', white
      space, '?' or '.', and neither is empty. */
  lemma ParseSome(url: string)
    requires ParseGitHubUrl(url).Some?
    ensures var r := ParseGitHubUrl(url).value;
      && r.owner != [] && (forall m :: 0 <= m < |r.owner| ==> r.owner[m] != '/')
      && r.repo != [] && (forall m :: 0 <= m < |r.repo| ==> RepoChar(r.repo[m]))
      && exists k :: 0 <= k < |url| && Occurs(url, k) && (forall j :: 0 <= j < k ==> !Occurs(url, j))
           && Spells(url, k, r)
  {
    SearchFromLeftmost(url, 0);
    var k :| 0 <= k < |url| && Occurs(url, k) && SearchFrom(url, 0) == MatchAt(url, k)
      && forall j :: 0 <= j < k ==> !Occurs(url, j);
    var m := MatchAt(url, k).value;
    StripGitUnused(m.repo);
    assert ParseGitHubUrl(url).value == m;
    MatchAtSpells(url, k);
  }

  /** An address whose repository name ends in ".git". */
  const WidgetsUrl: string := "https://github.com/acme/widgets.git"

  /** The example's host starts at 8. */
  lemma WidgetsHost()
    ensures WidgetsUrl[8..19] == Host
  {
    assert forall m :: 0 <= m < 11 ==> WidgetsUrl[8..19][m] == WidgetsUrl[8 + m];
  }

  /** The example's owner runs from 19 up to the '/' at 23. */
  lemma WidgetsOwner()
    ensures SlashFrom(WidgetsUrl, 19) == 23
  {
    SlashFromFirst(WidgetsUrl, 19, 23);
  }

  /** The example's repository runs from 24 up to the '.' at 31. */
  lemma WidgetsRepo()
    ensures RepoEnd(WidgetsUrl, 24) == 31
  {
    var s := WidgetsUrl;
    forall m | 24 <= m < 31 ensures RepoChar(s[m]) {
      assert 'a' <= s[m] <= 'z';
    }
    RepoEndLast(s, 24, 31);
  }

  /** At position 8 the pattern reads acme and widgets, stopping at the '.'. */
  lemma WidgetsMatch()
    ensures MatchAt(WidgetsUrl, 8) == Some(Repo("acme", "widgets"))
  {
    WidgetsHost();
    WidgetsOwner();
    WidgetsRepo();
    assert WidgetsUrl[19..23] == "acme" && WidgetsUrl[24..31] == "widgets";
  }

  /** No earlier position starts with the host. */
  lemma WidgetsLeftmost()
    ensures SearchFrom(WidgetsUrl, 0) == SearchFrom(WidgetsUrl, 8)
  {
    var s := WidgetsUrl;
    forall i | 0 <= i < 8 ensures MatchAt(s, i).None? {
      assert s[i..i + 11][0] == s[i] != Host[0];
    }
    assert SearchFrom(s, 7) == SearchFrom(s, 8);
    assert SearchFrom(s, 6) == SearchFrom(s, 7);
    assert SearchFrom(s, 5) == SearchFrom(s, 6);
    assert SearchFrom(s, 4) == SearchFrom(s, 5);
    assert SearchFrom(s, 3) == SearchFrom(s, 4);
    assert SearchFrom(s, 2) == SearchFrom(s, 3);
    assert SearchFrom(s, 1) == SearchFrom(s, 2);
  }

  /** "https://github.com/acme/widgets.git" reads as acme/widgets: the
      repository group stops at the '.', so the `.git` strip has nothing left
      to remove. */
  lemma ParseWidgets()
    ensures ParseGitHubUrl(WidgetsUrl) == Some(Repo("acme", "widgets"))
  {
    WidgetsMatch();
    WidgetsLeftmost();
    StripGitUnused("widgets");
  }

  // ---------------------------------------------------------------------------
  // The request and the log the page shows
  // ---------------------------------------------------------------------------

  /** The body the page sends to the edge function (it never sends `token`). */
  datatype RemixBody = RemixBody(
    sourceOwner: string, sourceRepo: string,
    destOwner: string, destRepo: string,
    sourceToken: string, destToken: string)

  /** The JSON the edge function answers with. A missing or non-array `logs`
      is `None`, a missing `success` is false and a missing or empty `error`
      is ""; a null `data` reads the same as `Payload(None, false, "")`. */
  datatype Payload = Payload(logs: Option<seq<LogEntry<string>>>, success: bool, error: string)

  /** What `await supabase.functions.invoke(...)` gives: the data, an `error`
      with its message, or an exception with its message. */
  datatype Invocation = Answered(data: Payload) | Refused(message: string) | Threw(message: string)

  /** The request `handleRemix` sends for the fields of the page, if it sends
      one: every field is filled in (the child token only when the accounts
      differ) and both URLs parse. */
  function Outgoing(sourceUrl: string, destUrl: string, tokenMae: string, tokenFilha: string,
                    sameAccount: bool): Option<RemixBody>
  {
    if sourceUrl == "" || destUrl == "" || tokenMae == "" || (!sameAccount && tokenFilha == "") then None
    else
      match (ParseGitHubUrl(sourceUrl), ParseGitHubUrl(destUrl))
      case (Some(source), Some(dest)) =>
        Some(RemixBody(source.owner, source.repo, dest.owner, dest.repo,
                       tokenMae, if sameAccount then tokenMae else tokenFilha))
      case _ => None
  }

  /** The four entries the page logs before it calls the server. */
  function Opening(source: Repo, dest: Repo): seq<LogEntry<string>> {
    [ LogEntry("Iniciando processo de remix...", Info),
      LogEntry("Fonte: " + source.owner + "/" + source.repo, Info),
      LogEntry("Destino: " + dest.owner + "/" + dest.repo, Info),
      LogEntry("Enviando para o servidor...", Info) ]
  }

  /** The entry that closes a server answer: `data?.error || "Erro desconhecido"`. */
  function Verdict(data: Payload): LogEntry<string> {
    if data.success then LogEntry("Remix concluído com sucesso! 🎉", Success)
    else LogEntry("Erro: " + (if data.error != "" then data.error else "Erro desconhecido"), Error)
  }

  /** The server's entries the page copies, in order. */
  function ServerLogs(data: Payload): seq<LogEntry<string>> {
    if data.logs.Some? then data.logs.value else []
  }

  /** What the page logs once the call returned or failed. */
  function Closing(answer: Invocation): seq<LogEntry<string>> {
    match answer
    case Answered(data) => ServerLogs(data) + [Verdict(data)]
    case Refused(message) => [LogEntry("Erro: " + message, Error)]
    case Threw(message) => [LogEntry("Erro: " + message, Error)]
  }

  /** The log the page shows once the request went out. */
  function Transcript(source: Repo, dest: Repo, answer: Invocation): seq<LogEntry<string>> {
    Opening(source, dest) + Closing(answer)
  }

  /** The request leaves only when every field is filled in and both URLs
      parse; an empty URL never parses anyway. */
  lemma OutgoingSent(sourceUrl: string, destUrl: string, tokenMae: string, tokenFilha: string, sameAccount: bool)
    ensures Outgoing(sourceUrl, destUrl, tokenMae, tokenFilha, sameAccount).Some? <==>
      && tokenMae != "" && (sameAccount || tokenFilha != "")
      && ParseGitHubUrl(sourceUrl).Some? && ParseGitHubUrl(destUrl).Some?
  {
    ParseNone("");
  }

  /** The request carries the parsed owners and repositories, the parent token
      as source token, and as destination token the parent token when both
      repositories are in the same account and the child token otherwise. */
  lemma OutgoingTokens(sourceUrl: string, destUrl: string, tokenMae: string, tokenFilha: string, sameAccount: bool)
    requires Outgoing(sourceUrl, destUrl, tokenMae, tokenFilha, sameAccount).Some?
    ensures var b := Outgoing(sourceUrl, destUrl, tokenMae, tokenFilha, sameAccount).value;
      && ParseGitHubUrl(sourceUrl) == Some(Repo(b.sourceOwner, b.sourceRepo))
      && ParseGitHubUrl(destUrl) == Some(Repo(b.destOwner, b.destRepo))
      && b.sourceToken == tokenMae
      && b.destToken == (if sameAccount then tokenMae else tokenFilha)
  {
  }

  /** The request as the edge function reads it: `token` is absent. */
  function AsRequest(b: RemixBody): GithubRemix.Request {
    GithubRemix.Request(b.sourceOwner, b.sourceRepo, b.destOwner, b.destRepo, "", b.sourceToken, b.destToken)
  }

  /** A request the page sends always passes the edge function's field check,
      and the edge function signs with exactly the tokens the page chose. */
  lemma OutgoingComplete(sourceUrl: string, destUrl: string, tokenMae: string, tokenFilha: string, sameAccount: bool)
    requires Outgoing(sourceUrl, destUrl, tokenMae, tokenFilha, sameAccount).Some?
    ensures var req := AsRequest(Outgoing(sourceUrl, destUrl, tokenMae, tokenFilha, sameAccount).value);
      && GithubRemix.HasRequiredFields(req)
      && GithubRemix.SourceToken(req) == tokenMae
      && GithubRemix.DestToken(req) == (if sameAccount then tokenMae else tokenFilha)
  {
    ParseSome(sourceUrl);
    ParseSome(destUrl);
  }

  /** The order of the page's log: four info entries; then, for an answer,
      the server's entries unchanged and in order and one last entry, a
      success exactly when the server reported success; for an error or an
      exception, one error entry only. */
  lemma TranscriptOrder(source: Repo, dest: Repo, answer: Invocation)
    ensures var t := Transcript(source, dest, answer);
      && |t| >= 5
      && (forall i :: 0 <= i < 4 ==> t[i].kind == Info)
      && match answer
         case Answered(data) =>
           && t[4..|t| - 1] == ServerLogs(data)
           && (Last(t).kind == Success <==> data.success)
           && (Last(t).kind == Success || Last(t).kind == Error)
         case _ => |t| == 5 && Last(t).kind == Error
  {
    var t := Transcript(source, dest, answer);
    if answer.Answered? {
      assert t[4..|t| - 1] == ServerLogs(answer.data);
    }
  }

  /** The server's log as JSON carries it: each message as its text. */
  function Rendered(notes: seq<GithubRemix.Note>): (t: seq<LogEntry<string>>)
    ensures |t| == |notes|
    ensures forall i :: 0 <= i < |t| ==>
      t[i].message == GithubRemix.Text(notes[i].message) && t[i].kind == notes[i].kind
  {
    seq(|notes|, i requires 0 <= i < |notes| => LogEntry(GithubRemix.Text(notes[i].message), notes[i].kind))
  }

  /** How a response of the edge function reaches the page: a 2xx answer as
      its JSON, any other status as an invocation error whose message,
      `refusal`, the client library chooses. */
  function Delivery(r: GithubRemix.Response, refusal: string): Invocation {
    if r.status == 200 then
      Answered(Payload(Some(Rendered(r.logs)), r.success,
                       if r.error.Some? then GithubRemix.Text(r.error.value) else ""))
    else Refused(refusal)
  }

  /** From the page's request to its log: the page ends with a success entry
      exactly when the edge function reports success, and then it shows the
      server's whole log, in order, before that entry. */
  lemma RemixReported(b: RemixBody, remote: GithubRemix.Remote, refusal: string)
    requires GithubRemix.HasRequiredFields(AsRequest(b))
    ensures var r := GithubRemix.Handle(GithubRemix.Parsed(AsRequest(b)), remote).response;
      var t := Closing(Delivery(r, refusal));
      && t != []
      && (Last(t).kind == Success <==> r.success)
      && (r.success ==> t[..|t| - 1] == Rendered(r.logs))
  {
    GithubRemix.HandleResponse(GithubRemix.Parsed(AsRequest(b)), remote);
    var r := GithubRemix.Handle(GithubRemix.Parsed(AsRequest(b)), remote).response;
    var t := Closing(Delivery(r, refusal));
    if r.success {
      assert t[..|t| - 1] == Rendered(r.logs);
    }
  }

  // ---------------------------------------------------------------------------
  // The page
  // ---------------------------------------------------------------------------

  /** The state of the page: its form fields, the busy flag and the log shown. */
  class Page {
    var sourceUrl: string
    var destUrl: string
    var tokenMae: string
    var tokenFilha: string
    var sameAccount: bool
    var loading: bool
    var logs: seq<LogEntry<string>>

    /** The page as first rendered. */
    constructor()
      ensures sourceUrl == "" && destUrl == "" && tokenMae == "" && tokenFilha == ""
      ensures sameAccount && !loading && logs == []
    {
      sourceUrl := "";
      destUrl := "";
      tokenMae := "";
      tokenFilha := "";
      sameAccount := true;
      loading := false;
      logs := [];
    }

    /** `addLog`: appends one entry. */
    method AddLog(message: string, kind: Kind)
      modifies this
      ensures logs == old(logs) + [LogEntry(message, kind)]
      ensures sourceUrl == old(sourceUrl) && destUrl == old(destUrl)
      ensures tokenMae == old(tokenMae) && tokenFilha == old(tokenFilha)
      ensures sameAccount == old(sameAccount) && loading == old(loading)
    {
      logs := logs + [LogEntry(message, kind)];
    }

    /** `data.logs.forEach(...)`: copies the server's entries, in order. */
    method Relay(serverLogs: seq<LogEntry<string>>)
      modifies this
      ensures logs == old(logs) + serverLogs
      ensures sourceUrl == old(sourceUrl) && destUrl == old(destUrl)
      ensures tokenMae == old(tokenMae) && tokenFilha == old(tokenFilha)
      ensures sameAccount == old(sameAccount) && loading == old(loading)
    {
      var i := 0;
      while i < |serverLogs|
        invariant 0 <= i <= |serverLogs|
        invariant logs == old(logs) + serverLogs[..i]
        invariant sourceUrl == old(sourceUrl) && destUrl == old(destUrl)
        invariant tokenMae == old(tokenMae) && tokenFilha == old(tokenFilha)
        invariant sameAccount == old(sameAccount) && loading == old(loading)
      {
        AddLog(serverLogs[i].message, serverLogs[i].kind);
        assert serverLogs[..i + 1] == serverLogs[..i] + [serverLogs[i]];
        i := i + 1;
      }
      assert serverLogs[..i] == serverLogs;
    }

    /** Logs the outcome of the call: the server's entries and the verdict,
        or the error of the call. */
    method Report(answer: Invocation)
      modifies this
      ensures logs == old(logs) + Closing(answer)
      ensures sourceUrl == old(sourceUrl) && destUrl == old(destUrl)
      ensures tokenMae == old(tokenMae) && tokenFilha == old(tokenFilha)
      ensures sameAccount == old(sameAccount) && loading == old(loading)
    {
      match answer {
        case Refused(message) =>
          AddLog("Erro: " + message, Error);
        case Threw(message) =>
          AddLog("Erro: " + message, Error);
        case Answered(data) =>
          if data.logs.Some? {
            Relay(data.logs.value);
          }
          if data.success {
            AddLog("Remix concluído com sucesso! 🎉", Success);
          } else {
            AddLog("Erro: " + (if data.error != "" then data.error else "Erro desconhecido"), Error);
          }
      }
    }

    /** `handleRemix`. The form fields are not changed; `invoke` stands for
        the call to the edge function. With a field missing or a URL that
        does not parse nothing is sent and the page is left as it was;
        otherwise the log is replaced by the transcript of the call and the
        page is no longer busy. */
    method HandleRemix(invoke: RemixBody -> Invocation) returns (sent: Option<RemixBody>)
      modifies this
      ensures sourceUrl == old(sourceUrl) && destUrl == old(destUrl)
      ensures tokenMae == old(tokenMae) && tokenFilha == old(tokenFilha) && sameAccount == old(sameAccount)
      ensures sent == Outgoing(sourceUrl, destUrl, tokenMae, tokenFilha, sameAccount)
      ensures sent.None? ==> logs == old(logs) && loading == old(loading)
      ensures sent.Some? ==>
        && logs == Transcript(ParseGitHubUrl(sourceUrl).value, ParseGitHubUrl(destUrl).value, invoke(sent.value))
        && !loading
    {
      if sourceUrl == "" || destUrl == "" || tokenMae == "" || (!sameAccount && tokenFilha == "") {
        return None;
      }
      var source := ParseGitHubUrl(sourceUrl);
      var dest := ParseGitHubUrl(destUrl);
      if source.None? || dest.None? {
        return None;
      }

      loading := true;
      logs := [];
      AddLog("Iniciando processo de remix...", Info);
      AddLog("Fonte: " + source.value.owner + "/" + source.value.repo, Info);
      AddLog("Destino: " + dest.value.owner + "/" + dest.value.repo, Info);
      AddLog("Enviando para o servidor...", Info);
      assert logs == Opening(source.value, dest.value);

      var body := RemixBody(source.value.owner, source.value.repo, dest.value.owner, dest.value.repo,
                            tokenMae, if sameAccount then tokenMae else tokenFilha);
      sent := Some(body);
      Report(invoke(body));
      loading := false;
    }
  }
}

/** The GitHub repository-list tool: the authenticated user's repositories as one line
    each, private ones only on request. The token lookup and the API calls are
    inputs: the token the environment holds, and either the repositories the API
    lists or the message of the exception it raised. */
module GithubRepositories {
  import opened Wrappers
  import opened Strings

  datatype Repo = Repo(name: string, isPrivate: bool)

  const MissingToken := "Error: GITHUB_ACCESS_TOKEN not found in environment variables"
  const NoRepositories := "No repositories found"
  const Heading := "Your GitHub repositories:\n"

  /** `f"- {repo.name} ({'private' if repo.private else 'public'})"`. */
  function RepoLine(r: Repo): string {
    "- " + r.name + " (" + (if r.isPrivate then "private" else "public") + ")"
  }

  /** A repository the loop does not skip. */
  predicate Listed(r: Repo, includePrivate: bool) {
    includePrivate || !r.isPrivate
  }

  /** The lines `repo_list` ends up holding. */
  function RepoLines(repos: seq<Repo>, includePrivate: bool): (r: seq<string>)
    ensures |r| <= |repos|
    ensures r == [] <==> forall i :: 0 <= i < |repos| ==> !Listed(repos[i], includePrivate)
    decreases |repos|
  {
    if repos == [] then []
    else
      var rest := RepoLines(repos[1..], includePrivate);
      assert forall i :: 1 <= i < |repos| ==> repos[i] == repos[1..][i - 1];
      if Listed(repos[0], includePrivate) then [RepoLine(repos[0])] + rest else rest
  }

  /** `run()`: a missing or empty token is reported without asking the API. */
  function Report(token: Option<string>, includePrivate: bool, repos: Result<seq<Repo>, string>): (r: string)
    ensures token.None? || token.value == "" ==> r == MissingToken
    ensures token.Some? && token.value != "" && repos.Failure? ==> r == "Error accessing GitHub: " + repos.error
    ensures token.Some? && token.value != "" && repos.Success? ==>
              (r == NoRepositories <==> forall i :: 0 <= i < |repos.value| ==> !Listed(repos.value[i], includePrivate))
  {
    if token.None? || token.value == "" then MissingToken
    else match repos
      case Failure(e) => "Error accessing GitHub: " + e
      case Success(rs) =>
        var lines := RepoLines(rs, includePrivate);
        if lines == [] then NoRepositories
        else
          var r := Heading + Join(lines, "\n");
          assert r[0] != NoRepositories[0];
          r
  }

  /** `run()`, as its loop: skip private repositories unless asked for, append one
      line per repository kept, then report. */
  method Run(token: Option<string>, includePrivate: bool, repos: Result<seq<Repo>, string>) returns (out: string)
    ensures out == Report(token, includePrivate, repos)
  {
    if token.None? || token.value == "" {
      return MissingToken;
    }
    if repos.Failure? {
      return "Error accessing GitHub: " + repos.error;
    }
    var rs := repos.value;
    var repoList: seq<string> := [];
    for i := 0 to |rs|
      invariant repoList == RepoLines(rs[..i], includePrivate)
    {
      RepoLinesAppend(rs[..i], [rs[i]], includePrivate);
      TakeSnoc(rs, i);
      if !includePrivate && rs[i].isPrivate {
        continue;
      }
      repoList := repoList + [RepoLine(rs[i])];
    }
    TakeAll(rs);
    if repoList == [] {
      return NoRepositories;
    }
    return Heading + Join(repoList, "\n");
  }

  /** Listing two runs of repositories lists the first, then the second: the lines
      keep the input order. */
  lemma {:induction false} RepoLinesAppend(a: seq<Repo>, b: seq<Repo>, includePrivate: bool)
    ensures RepoLines(a + b, includePrivate) == RepoLines(a, includePrivate) + RepoLines(b, includePrivate)
    decreases |a|
  {
    if a == [] {
      assert a + b == b;
    } else {
      assert (a + b)[0] == a[0] && (a + b)[1..] == a[1..] + b;
      RepoLinesAppend(a[1..], b, includePrivate);
    }
  }

  /** With private repositories included, every repository has its line, in order. */
  lemma {:induction false} AllListed(repos: seq<Repo>)
    ensures var lines := RepoLines(repos, true);
            |lines| == |repos| && forall i :: 0 <= i < |repos| ==> lines[i] == RepoLine(repos[i])
    decreases |repos|
  {
    if repos != [] {
      AllListed(repos[1..]);
      var lines := RepoLines(repos, true);
      assert lines == [RepoLine(repos[0])] + RepoLines(repos[1..], true);
      assert forall i :: 1 <= i < |repos| ==> lines[i] == RepoLines(repos[1..], true)[i - 1];
    }
  }

  /** Without them, the lines are those of the public repositories, and none says
      "(private)"; every public repository has its line. */
  lemma {:induction false} PublicOnly(repos: seq<Repo>)
    ensures forall l :: l in RepoLines(repos, false) ==>
              exists i :: 0 <= i < |repos| && !repos[i].isPrivate && l == RepoLine(repos[i])
    ensures forall i :: 0 <= i < |repos| && !repos[i].isPrivate ==> RepoLine(repos[i]) in RepoLines(repos, false)
    decreases |repos|
  {
    if repos != [] {
      PublicOnly(repos[1..]);
      var lines := RepoLines(repos, false);
      var rest := RepoLines(repos[1..], false);
      assert !repos[0].isPrivate ==> lines == [RepoLine(repos[0])] + rest;
      assert repos[0].isPrivate ==> lines == rest;
      forall l | l in lines
        ensures exists i :: 0 <= i < |repos| && !repos[i].isPrivate && l == RepoLine(repos[i])
      {
        if !repos[0].isPrivate && l == RepoLine(repos[0]) {
        } else {
          assert l in rest;
          var i :| 0 <= i < |repos[1..]| && !repos[1..][i].isPrivate && l == RepoLine(repos[1..][i]);
          assert repos[i + 1] == repos[1..][i];
        }
      }
      forall i | 0 <= i < |repos| && !repos[i].isPrivate
        ensures RepoLine(repos[i]) in lines
      {
        if i > 0 {
          assert repos[1..][i - 1] == repos[i];
          assert RepoLine(repos[i]) in rest;
        }
      }
    }
  }

  /** A repository's line ends in "(private)" exactly when it is private. */
  lemma VisibilityShown(r: Repo)
    ensures var l := RepoLine(r);
            r.isPrivate <==> |l| >= 9 && l[|l| - 9..] == "(private)"
  {
    var l := RepoLine(r);
    if !r.isPrivate {
      assert l[|l| - 8..] == "(public)";
      if |l| >= 9 {
        assert l[|l| - 9..][1..] == l[|l| - 8..];
        assert l[|l| - 9..][1..] != "(private)"[1..];
      }
    }
  }

  /** The report after its heading is the lines, one per line, when no repository
      name holds a newline. */
  lemma ReportLines(token: string, includePrivate: bool, rs: seq<Repo>)
    requires token != ""
    requires RepoLines(rs, includePrivate) != []
    requires forall i :: 0 <= i < |rs| ==> '\n' !in rs[i].name
    ensures var r := Report(Some(token), includePrivate, Success(rs));
            StartsWith(r, Heading) && Split(r[|Heading|..], '\n') == RepoLines(rs, includePrivate)
  {
    var lines := RepoLines(rs, includePrivate);
    NoNewline(rs, includePrivate);
    SplitJoin(lines, '\n');
    var r := Report(Some(token), includePrivate, Success(rs));
    assert r == Heading + Join(lines, "\n");
    assert r[|Heading|..] == Join(lines, "\n");
  }

  lemma {:induction false} NoNewline(rs: seq<Repo>, includePrivate: bool)
    requires forall i :: 0 <= i < |rs| ==> '\n' !in rs[i].name
    ensures forall i :: 0 <= i < |RepoLines(rs, includePrivate)| ==> '\n' !in RepoLines(rs, includePrivate)[i]
    decreases |rs|
  {
    if rs != [] {
      NoNewline(rs[1..], includePrivate);
      assert forall i :: 0 <= i < |rs[1..]| ==> rs[1..][i] == rs[i + 1];
      var l := RepoLine(rs[0]);
      assert '\n' !in l;
    }
  }
}

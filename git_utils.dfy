/** The repository-name lookup: a remote URL is parsed into a repository name, with
    the git root's directory name as the fallback. The two git queries themselves
    run a subprocess; here their answers are inputs. */
module GitUtils {
  import opened Wrappers
  import opened Strings

  const GitSuffix := ".git"

  /** The name part of a remote URL's last piece: every ".git" removed. */
  function StripGit(piece: string): string {
    Replace(piece, GitSuffix, "")
  }

  /** `parse_repo_name(remote_url)`: for an SSH URL the last `/` piece of the text
      after the last `:`, for an HTTP(S) URL the last `/` piece of the whole URL,
      with ".git" removed; None for any other URL. */
  function ParseRepoName(url: string): (r: Option<string>)
    ensures r.None? <==> !StartsWith(url, "git@") && !StartsWith(url, "http")
    ensures r.Some? ==> '/' !in r.value
  {
    if StartsWith(url, "git@") then
      var piece := Last(Split(Last(Split(url, ':')), '/'));
      SplitPiecesLackSep(Last(Split(url, ':')), '/');
      ReplaceEmptyKeeps(piece, GitSuffix, '/');
      Some(StripGit(piece))
    else if StartsWith(url, "http") then
      var piece := Last(Split(url, '/'));
      SplitPiecesLackSep(url, '/');
      ReplaceEmptyKeeps(piece, GitSuffix, '/');
      Some(StripGit(piece))
    else None
  }

  /** The SSH form: the name comes from a suffix of the URL that follows its last `:`
      and its last `/` after that (or the whole URL when there is neither). */
  lemma SshName(url: string)
    requires StartsWith(url, "git@")
    ensures exists n: nat :: n <= |url| && ParseRepoName(url) == Some(StripGit(url[n..])) &&
                             ':' !in url[n..] && '/' !in url[n..] &&
                             (n > 0 ==> url[n - 1] == ':' || url[n - 1] == '/')
  {
    var afterColon := Last(Split(url, ':'));
    LastSplitIsSuffix(url, ':');
    var piece := Last(Split(afterColon, '/'));
    LastSplitIsSuffix(afterColon, '/');
    var n := |url| - |piece|;
    assert url[n..] == piece;
    assert ':' !in piece by {
      assert forall i :: 0 <= i < |piece| ==> piece[i] == afterColon[|afterColon| - |piece| + i];
    }
    if n > 0 {
      if |piece| < |afterColon| {
        assert url[n - 1] == afterColon[|afterColon| - |piece| - 1];
      } else {
        assert url[n - 1] == url[|url| - |afterColon| - 1];
      }
    }
    assert ParseRepoName(url) == Some(StripGit(url[n..]));
  }

  /** The HTTP(S) form: the name comes from the text after the URL's last `/`. */
  lemma HttpName(url: string)
    requires StartsWith(url, "http")
    ensures exists n: nat :: n <= |url| && ParseRepoName(url) == Some(StripGit(url[n..])) &&
                             '/' !in url[n..] && (n > 0 ==> url[n - 1] == '/')
  {
    var piece := Last(Split(url, '/'));
    LastSplitIsSuffix(url, '/');
    var n := |url| - |piece|;
    assert url[n..] == piece;
  }

  /** A trailing ".git" is removed. */
  lemma {:induction false} StripGitSuffix(x: string)
    ensures StripGit(x + GitSuffix) == StripGit(x)
    decreases |x|
  {
    var y := x + GitSuffix;
    if StartsWith(y, GitSuffix) {
      if |x| >= |GitSuffix| {
        assert StartsWith(x, GitSuffix);
        assert y[|GitSuffix|..] == x[|GitSuffix|..] + GitSuffix;
        StripGitSuffix(x[|GitSuffix|..]);
      } else {
        assert y[..|GitSuffix|] == GitSuffix;
        assert y[|x|] == GitSuffix[|x|];
        assert y[|x|] == GitSuffix[0];
        assert |x| == 0;
        assert y[|GitSuffix|..] == [];
      }
    } else {
      assert x != [];
      if |x| >= |GitSuffix| {
        assert x[..|GitSuffix|] == y[..|GitSuffix|];
      }
      assert !StartsWith(x, GitSuffix);
      assert y[1..] == x[1..] + GitSuffix;
      StripGitSuffix(x[1..]);
    }
  }

  /** Text without a '.' comes through `StripGit` unchanged. */
  lemma {:induction false} StripGitPlain(a: string, b: string)
    requires '.' !in a
    ensures StripGit(a + b) == a + StripGit(b)
    decreases |a|
  {
    if a != [] {
      assert (a + b)[0] == a[0] && a[0] != '.' && GitSuffix[0] == '.';
      assert !StartsWith(a + b, GitSuffix);
      assert StripGit(a + b) == [a[0]] + StripGit((a + b)[1..]);
      assert (a + b)[1..] == a[1..] + b;
      assert '.' !in a[1..];
      StripGitPlain(a[1..], b);
      assert StripGit(a + b) == [a[0]] + (a[1..] + StripGit(b));
      assert [a[0]] + (a[1..] + StripGit(b)) == a + StripGit(b);
    } else {
      assert a + b == b && a + StripGit(b) == StripGit(b);
    }
  }

  /** ".git" is removed wherever it occurs, not only at the end. */
  lemma InnerGitRemoved(a: string, b: string)
    requires '.' !in a
    ensures StripGit(a + GitSuffix + b) == a + StripGit(b)
  {
    StripGitPlain(a, GitSuffix + b);
    assert a + GitSuffix + b == a + (GitSuffix + b);
    assert (GitSuffix + b)[|GitSuffix|..] == b;
  }

  /** A dot-free name followed by ".git" loses exactly the suffix. */
  lemma StripGitName(name: string)
    requires '.' !in name
    ensures StripGit(name + GitSuffix) == name
  {
    StripGitPlain(name, GitSuffix);
    assert StripGit(GitSuffix) == "" + StripGit(GitSuffix[4..]);
  }

  /** How an SSH remote URL is laid out around its `:` and its `/`. */
  lemma SshUrlShape(host: string, user: string, name: string)
    requires ':' !in host && ':' !in user && '/' !in user
    requires ':' !in name && '/' !in name
    ensures var url := "git@" + host + ":" + user + "/" + name + GitSuffix;
            var rest := user + ['/'] + (name + GitSuffix);
            && url == ("git@" + host) + [':'] + rest
            && StartsWith(url, "git@")
            && ':' !in rest && '/' !in name + GitSuffix
  {
    var url := "git@" + host + ":" + user + "/" + name + GitSuffix;
    assert url[..4] == "git@";
  }

  /** An SSH remote `git@<host>:<user>/<name>.git` names the repository `<name>`. */
  lemma SshRemoteName(host: string, user: string, name: string)
    requires ':' !in host && ':' !in user && '/' !in user
    requires ':' !in name && '/' !in name && '.' !in name
    ensures ParseRepoName("git@" + host + ":" + user + "/" + name + GitSuffix) == Some(name)
  {
    SshUrlShape(host, user, name);
    SplitOnce("git@" + host, user + ['/'] + (name + GitSuffix), ':');
    SplitOnce(user, name + GitSuffix, '/');
    StripGitName(name);
  }

  /** `os.path.basename(path)` on a POSIX path: the text after the last `/`. */
  function Basename(path: string): (r: string)
    ensures |r| <= |path| && path[|path| - |r|..] == r && '/' !in r
    ensures |r| < |path| ==> path[|path| - |r| - 1] == '/'
  {
    LastSplitIsSuffix(path, '/');
    Last(Split(path, '/'))
  }

  const NotARepository := "Not a git repository"

  /** The answer of one git query: its output (None when the command failed), or an
      exception escaping the await, with its message. */
  type Query = Result<Option<string>, string>

  /** Python's truthiness of an optional string. */
  predicate Truthy(s: Option<string>) {
    s.Some? && s.value != ""
  }

  /** `get_repository_name()`, given the answers of `get_git_root` and
      `get_remote_url`; the remote is asked only once a root was found. */
  function GetRepositoryName(root: Query, remote: Query): (r: string)
    ensures root.Failure? ==> r == "Error: " + root.error
    ensures root.Success? && !Truthy(root.value) ==> r == NotARepository
    ensures root.Success? && Truthy(root.value) ==>
              && (remote.Failure? ==> r == "Error: " + remote.error)
              && (remote.Success? && !Truthy(remote.value) ==> r == Basename(root.value.value))
              && (remote.Success? && Truthy(remote.value) ==>
                    var parsed := ParseRepoName(remote.value.value);
                    r == if Truthy(parsed) then parsed.value else Basename(root.value.value))
  {
    match root
    case Failure(e) => "Error: " + e
    case Success(rootDir) =>
      if !Truthy(rootDir) then NotARepository
      else match remote
        case Failure(e) => "Error: " + e
        case Success(url) =>
          if !Truthy(url) then Basename(rootDir.value)
          else
            var name := ParseRepoName(url.value);
            if Truthy(name) then name.value else Basename(rootDir.value)
  }

  /** Short of an exception, the answer is the fixed message or a single path
      component: it never contains a `/`. */
  lemma {:induction false} RepositoryNameIsComponent(root: Query, remote: Query)
    requires root.Success? && (Truthy(root.value) ==> remote.Success?)
    ensures '/' !in GetRepositoryName(root, remote)
  {
    if Truthy(root.value) && Truthy(remote.value) {
      var parsed := ParseRepoName(remote.value.value);
      if Truthy(parsed) {
        assert '/' !in parsed.value;
      }
    }
  }

  /** An SSH remote names the repository after its URL, not its directory. */
  lemma RemoteWins(root: string, host: string, user: string, name: string)
    requires root != "" && name != ""
    requires ':' !in host && ':' !in user && '/' !in user
    requires ':' !in name && '/' !in name && '.' !in name
    ensures GetRepositoryName(Success(Some(root)), Success(Some("git@" + host + ":" + user + "/" + name + GitSuffix)))
            == name
  {
    SshRemoteName(host, user, name);
  }
}

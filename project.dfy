/** The project object of the command line: its configuration, the values it memoises
    from git, and the repository checks that run before stacks are selected from git
    changes. Git calls are parameters holding their answers. */
module Project {

  import opened Wrappers
  import opened GitPort
  import opened ProjectConfig

  /** Why a memoising lookup ends the process (`logger.Fatal()`). */
  datatype Fatal =
    | HeadUnresolved                                     // RevParse("HEAD") failed
    | RemoteCommitUnresolved(remote: string, branch: string)  // FetchRemoteRev failed

  /** Why a repository check fails. */
  datatype CheckError =
    | RemotesUnavailable                   // listing the remotes failed
    | MissingRemote(remote: string)        // no remote with the configured name
    | MissingBranch(remote: string, branch: string, branches: seq<string>)
    | HeadOutOfDate                        // ErrCurrentHeadIsOutOfDate
    | Exited(reason: Fatal)                // a memoising lookup ended the process

  /** The outcome of a check: Go's nil error, or an error. */
  datatype Check = Pass | Fail(error: CheckError)

  /** One memoising lookup: the memo when it is set, else the fresh answer of git; a
      failed answer ends the process with `fatal`. An empty answer is returned but, being
      the memo's "unset" value, is asked for again next time. */
  function MemoLookup(memo: string, answer: Answer<string>, fatal: Fatal): (r: Result<string, Fatal>)
    ensures memo != "" ==> r == Ok(memo)
    ensures memo == "" && answer.Errored? ==> r == Err(fatal)
    ensures memo == "" && answer.Answered? ==> r == Ok(answer.value)
  {
    if memo != "" then Ok(memo)
    else if answer.Errored? then Err(fatal)
    else Ok(answer.value)
  }

  /** The memo after a lookup: the returned value when there is one. */
  function MemoAfter(memo: string, r: Result<string, Fatal>): string {
    if r.Ok? then r.value else memo
  }

  /** Once a lookup has returned a non-empty value, every later lookup returns that value,
      whatever git would answer then. */
  lemma MemoIsStable(memo: string, first: Answer<string>, later: Answer<string>, fatal: Fatal)
    requires MemoLookup(memo, first, fatal).Ok? && MemoLookup(memo, first, fatal).value != ""
    ensures MemoLookup(MemoAfter(memo, MemoLookup(memo, first, fatal)), later, fatal)
            == MemoLookup(memo, first, fatal)
  {
  }

  /** `setDefaults` on a configuration value: creates the missing terramate, config and git
      blocks and fills in each empty string option of the git block with its default. */
  function WithDefaults(root: Root, defaults: GitConfig): (r: Root)
    ensures HasGit(r)
    ensures var g := if HasGit(root) then Git(root) else NewGitConfig();
            && Git(r).defaultBranchBaseRef
                 == (if g.defaultBranchBaseRef == "" then defaults.defaultBranchBaseRef else g.defaultBranchBaseRef)
            && Git(r).defaultBranch
                 == (if g.defaultBranch == "" then defaults.defaultBranch else g.defaultBranch)
            && Git(r).defaultRemote
                 == (if g.defaultRemote == "" then defaults.defaultRemote else g.defaultRemote)
  {
    var tm := if root.terramate.Some? then root.terramate.value else Terramate(None);
    var rc := if tm.config.Some? then tm.config.value else RootConfig(None);
    var g := if rc.git.Some? then rc.git.value else NewGitConfig();
    var g1 := if g.defaultBranchBaseRef == "" then g.(defaultBranchBaseRef := defaults.defaultBranchBaseRef) else g;
    var g2 := if g1.defaultBranch == "" then g1.(defaultBranch := defaults.defaultBranch) else g1;
    var g3 := if g2.defaultRemote == "" then g2.(defaultRemote := defaults.defaultRemote) else g2;
    Root(Some(tm.(config := Some(rc.(git := Some(g3))))))
  }

  /** Setting the defaults twice gives the configuration that setting them once gives. */
  lemma WithDefaultsIdempotent(root: Root, defaults: GitConfig)
    ensures WithDefaults(WithDefaults(root, defaults), defaults) == WithDefaults(root, defaults)
  {
  }

  /** Options already set are kept, and with non-empty defaults no option stays empty. */
  lemma WithDefaultsKeepsSetOptions(root: Root, defaults: GitConfig)
    requires HasGit(root)
    ensures Git(root).defaultRemote != "" ==> Git(WithDefaults(root, defaults)).defaultRemote == Git(root).defaultRemote
    ensures Git(root).defaultBranch != "" ==> Git(WithDefaults(root, defaults)).defaultBranch == Git(root).defaultBranch
    ensures Git(root).defaultBranchBaseRef != ""
            ==> Git(WithDefaults(root, defaults)).defaultBranchBaseRef == Git(root).defaultBranchBaseRef
    ensures defaults.defaultRemote != "" && defaults.defaultBranch != "" && defaults.defaultBranchBaseRef != ""
            ==> var g := Git(WithDefaults(root, defaults));
                g.defaultRemote != "" && g.defaultBranch != "" && g.defaultBranchBaseRef != ""
  {
  }

  /** The index of the first remote called `name`, if any. */
  function FirstRemoteNamed(remotes: seq<Remote>, name: string): (k: Option<nat>)
    ensures k.Some? ==> k.value < |remotes| && remotes[k.value].name == name
                        && forall j | 0 <= j < k.value :: remotes[j].name != name
    ensures k.None? ==> forall j | 0 <= j < |remotes| :: remotes[j].name != name
  {
    if |remotes| == 0 then None
    else if remotes[0].name == name then Some(0)
    else
      var k := FirstRemoteNamed(remotes[1..], name);
      if k.Some? then Some(k.value + 1) else None
  }

  class Project {
    var root: Root
    var isRepo: bool
    var normalizedRepo: string
    var headCommitMemo: string
    var remoteDefaultCommitMemo: string

    /** A project whose memo fields are all unset. */
    constructor (root: Root, isRepo: bool)
      ensures this.root == root && this.isRepo == isRepo
      ensures normalizedRepo == "" && headCommitMemo == "" && remoteDefaultCommitMemo == ""
    {
      this.root := root;
      this.isRepo := isRepo;
      normalizedRepo := "";
      headCommitMemo := "";
      remoteDefaultCommitMemo := "";
    }

    /** The configuration has its git block (which `setDefaults` guarantees). */
    predicate HasGitConfig()
      reads this
    {
      HasGit(root)
    }

    function GitCfg(): GitConfig
      reads this
      requires HasGitConfig()
    {
      Git(root)
    }

    /** Fills in the missing blocks and the empty git options, in place. */
    method SetDefaults(defaults: GitConfig)
      modifies this`root
      ensures root == WithDefaults(old(root), defaults)
      ensures HasGitConfig()
    {
      var tm := if root.terramate.Some? then root.terramate.value else Terramate(None);
      if root.terramate.None? {
        root := Root(Some(tm));
      }
      var rc := if tm.config.Some? then tm.config.value else RootConfig(None);
      if tm.config.None? {
        tm := tm.(config := Some(rc));
        root := Root(Some(tm));
      }
      var g := if rc.git.Some? then rc.git.value else NewGitConfig();
      if rc.git.None? {
        rc := rc.(git := Some(g));
        tm := tm.(config := Some(rc));
        root := Root(Some(tm));
      }
      if g.defaultBranchBaseRef == "" {
        g := g.(defaultBranchBaseRef := defaults.defaultBranchBaseRef);
      }
      if g.defaultBranch == "" {
        g := g.(defaultBranch := defaults.defaultBranch);
      }
      if g.defaultRemote == "" {
        g := g.(defaultRemote := defaults.defaultRemote);
      }
      rc := rc.(git := Some(g));
      tm := tm.(config := Some(rc));
      root := Root(Some(tm));
    }

    /** The commit of HEAD, asked of git (`revParseHead`) only while no commit is memoised. */
    method HeadCommit(revParseHead: Answer<string>) returns (r: Result<string, Fatal>)
      modifies this`headCommitMemo
      ensures r == MemoLookup(old(headCommitMemo), revParseHead, HeadUnresolved)
      ensures headCommitMemo == MemoAfter(old(headCommitMemo), r)
    {
      if headCommitMemo != "" {
        return Ok(headCommitMemo);
      }
      if revParseHead.Errored? {
        return Err(HeadUnresolved);
      }
      headCommitMemo := revParseHead.value;
      return Ok(revParseHead.value);
    }

    /** The commit of the remote default branch, fetched (`fetched` is the commit id
        FetchRemoteRev answers) only while no commit is memoised. */
    method RemoteDefaultCommit(fetched: Answer<string>) returns (r: Result<string, Fatal>)
      requires remoteDefaultCommitMemo == "" ==> HasGitConfig()
      modifies this`remoteDefaultCommitMemo
      ensures remoteDefaultCommitMemo == "" ==> HasGitConfig()
      ensures old(remoteDefaultCommitMemo) != "" ==> r == Ok(old(remoteDefaultCommitMemo))
      ensures old(remoteDefaultCommitMemo) == ""
              ==> r == MemoLookup("", fetched, RemoteCommitUnresolved(GitCfg().defaultRemote, GitCfg().defaultBranch))
      ensures remoteDefaultCommitMemo == MemoAfter(old(remoteDefaultCommitMemo), r)
    {
      if remoteDefaultCommitMemo != "" {
        return Ok(remoteDefaultCommitMemo);
      }
      var gitcfg := GitCfg();
      if fetched.Errored? {
        return Err(RemoteCommitUnresolved(gitcfg.defaultRemote, gitcfg.defaultBranch));
      }
      remoteDefaultCommitMemo := fetched.value;
      return Ok(remoteDefaultCommitMemo);
    }

    /** The normalised repository URL, computed from the default remote's URL (`url`) with
        the normaliser `normalize` and memoised; empty when it cannot be had. */
    method PrettyRepo(url: Answer<string>, normalize: string -> string) returns (r: string)
      requires normalizedRepo == "" && isRepo ==> HasGitConfig()
      modifies this`normalizedRepo
      ensures old(normalizedRepo) != "" ==> r == old(normalizedRepo)
      ensures old(normalizedRepo) == "" && isRepo && url.Answered? ==> r == normalize(url.value)
      ensures old(normalizedRepo) == "" && (!isRepo || url.Errored?) ==> r == ""
      ensures normalizedRepo == r
    {
      if normalizedRepo != "" {
        return normalizedRepo;
      }
      if isRepo {
        if url.Answered? {
          normalizedRepo := normalize(url.value);
        }
      }
      return normalizedRepo;
    }

    /** The configured default remote exists and its first occurrence knows the default
        branch. `remotes` is the answer of listing the remotes. */
    method CheckDefaultRemote(remotes: Answer<seq<Remote>>) returns (r: Check)
      requires remotes.Answered? ==> HasGitConfig()
      ensures remotes.Errored? ==> r == Fail(RemotesUnavailable)
      ensures remotes.Answered? && FirstRemoteNamed(remotes.value, GitCfg().defaultRemote).None?
              ==> r == Fail(MissingRemote(GitCfg().defaultRemote))
      ensures remotes.Answered? && FirstRemoteNamed(remotes.value, GitCfg().defaultRemote).Some?
              ==> var def := remotes.value[FirstRemoteNamed(remotes.value, GitCfg().defaultRemote).value];
                  r == if GitCfg().defaultBranch in def.branches then Pass
                       else Fail(MissingBranch(GitCfg().defaultRemote, GitCfg().defaultBranch, def.branches))
    {
      if remotes.Errored? {
        return Fail(RemotesUnavailable);
      }
      var rs := remotes.value;
      var defRemote: Option<Remote> := None;
      var gitcfg := GitCfg();
      var i := 0;
      while i < |rs|
        invariant 0 <= i <= |rs|
        invariant defRemote.None?
        invariant forall j | 0 <= j < i :: rs[j].name != gitcfg.defaultRemote
      {
        if rs[i].name == gitcfg.defaultRemote {
          defRemote := Some(rs[i]);
          break;
        }
        i := i + 1;
      }
      if defRemote.None? {
        return Fail(MissingRemote(gitcfg.defaultRemote));
      }
      assert FirstRemoteNamed(rs, gitcfg.defaultRemote) == Some(i);
      var branches := defRemote.value.branches;
      for k := 0 to |branches|
        invariant forall j | 0 <= j < k :: branches[j] != gitcfg.defaultBranch
      {
        if branches[k] == gitcfg.defaultBranch {
          return Pass;
        }
      }
      return Fail(MissingBranch(gitcfg.defaultRemote, gitcfg.defaultBranch, branches));
    }

    /** HEAD is not behind the remote default branch: the merge base of the two commits is
        the remote default commit itself. `mergeBase` answers MergeBase for two commits. */
    method CheckRemoteDefaultBranchIsReachable(
      revParseHead: Answer<string>, fetched: Answer<string>, mergeBase: (string, string) -> Answer<string>)
      returns (r: Check)
      requires HasGitConfig()
      modifies this`headCommitMemo, this`remoteDefaultCommitMemo
      ensures var head := MemoLookup(old(headCommitMemo), revParseHead, HeadUnresolved);
              var remote := MemoLookup(old(remoteDefaultCommitMemo), fetched,
                                       RemoteCommitUnresolved(GitCfg().defaultRemote, GitCfg().defaultBranch));
              && (head.Err? ==> r == Fail(Exited(head.error)))
              && (head.Ok? && remote.Err? ==> r == Fail(Exited(remote.error)))
              && (head.Ok? && remote.Ok? ==>
                    (r == Pass <==> mergeBase(head.value, remote.value) == Answered(remote.value))
                    && (r != Pass ==> r == Fail(HeadOutOfDate)))
      ensures var head := MemoLookup(old(headCommitMemo), revParseHead, HeadUnresolved);
              var remote := MemoLookup(old(remoteDefaultCommitMemo), fetched,
                                       RemoteCommitUnresolved(GitCfg().defaultRemote, GitCfg().defaultBranch));
              && headCommitMemo == MemoAfter(old(headCommitMemo), head)
              && (head.Ok? ==> remoteDefaultCommitMemo == MemoAfter(old(remoteDefaultCommitMemo), remote))
              && (head.Err? ==> remoteDefaultCommitMemo == old(remoteDefaultCommitMemo))
    {
      // The source asks for both commits once for logging and again for the merge base;
      // the second lookups return the memoised (or, for an empty commit, the same) values.
      var head := HeadCommit(revParseHead);
      if head.Err? {
        return Fail(Exited(head.error));
      }
      var remote := RemoteDefaultCommit(fetched);
      if remote.Err? {
        return Fail(Exited(remote.error));
      }
      var mergeBaseCommit := mergeBase(head.value, remote.value);
      if mergeBaseCommit.Errored? {
        return Fail(HeadOutOfDate);
      }
      if mergeBaseCommit.value != remote.value {
        return Fail(HeadOutOfDate);
      }
      return Pass;
    }
  }

  /** A caller's view of the memo: after HEAD's commit has been read once as a non-empty
      value, a second read returns it even when git would now fail or answer differently. */
  method HeadCommitIsReadOnce(p: Project, first: Answer<string>, later: Answer<string>)
    returns (a: Result<string, Fatal>, b: Result<string, Fatal>)
    modifies p`headCommitMemo
    ensures a.Ok? && a.value != "" ==> b == a
  {
    a := p.HeadCommit(first);
    b := p.HeadCommit(later);
  }
}

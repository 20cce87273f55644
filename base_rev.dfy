/** The choice of the revision that HEAD is diffed against (`defaultBaseRev`) and the
    remote default branch ref it is built around. */
module BaseRev {

  import opened GitPort
  import opened ProjectConfig

  /** The answers of the git calls `defaultBaseRev` makes, each one for the arguments the
      code passes (HEAD and the remote default branch ref). */
  datatype Probes = Probes(
    headRev: Answer<string>,              // RevParse("HEAD")
    remoteRev: Answer<string>,            // RevParse(remote/branch)
    headIsAncestor: Answer<bool>,         // IsAncestor("HEAD", remote/branch)
    currentBranch: Answer<string>,        // CurrentBranch()
    firstParentProbe: Answer<bool>,       // IsFirstParentAncestor(remote/branch, "HEAD"); its direction is the git wrapper's
    forkPoint: Answer<string>)            // FindForkPoint(remote/branch, "HEAD")

  /** `remote/branch`, the ref of the default branch on the default remote. */
  function RemoteDefaultBranchRef(cfg: GitConfig): (r: string)
    ensures |r| == |cfg.defaultRemote| + 1 + |cfg.defaultBranch|
    ensures r[..|cfg.defaultRemote|] == cfg.defaultRemote
    ensures r[|cfg.defaultRemote|] == '/'
    ensures r[|cfg.defaultRemote| + 1..] == cfg.defaultBranch
  {
    cfg.defaultRemote + "/" + cfg.defaultBranch
  }

  /** HEAD resolved, and it is the commit the remote default branch points to. An empty
      (failed) HEAD never counts as equal. */
  predicate AtRemoteDefault(p: Probes) {
    var headRev := p.headRev.OrZero("");
    headRev != "" && headRev == p.remoteRev.OrZero("")
  }

  /** The checked-out branch is the configured default branch. */
  predicate OnDefaultBranch(cfg: GitConfig, p: Probes) {
    var branch := p.currentBranch.OrZero("");
    branch != "" && branch == cfg.defaultBranch
  }

  /** The revision to compare HEAD with; every failed probe counts as its zero value. */
  function DefaultBaseRev(cfg: GitConfig, p: Probes): (r: string)
    ensures r == RemoteDefaultBranchRef(cfg) || r == cfg.defaultBranchBaseRef
            || (r == p.forkPoint.OrZero("") && r != "")
  {
    var remoteRef := RemoteDefaultBranchRef(cfg);
    var headRev := p.headRev.OrZero("");
    var remoteDefaultRev := p.remoteRev.OrZero("");
    var isRemoteDefaultRev := headRev != "" && headRev == remoteDefaultRev;
    var isRemoteDefaultRevAncestor := p.headIsAncestor.OrZero(false);
    if !isRemoteDefaultRev && !isRemoteDefaultRevAncestor then
      remoteRef                                       // case 1, pending
    else
      var branch := p.currentBranch.OrZero("");
      var isDefaultBranch := branch != "" && branch == cfg.defaultBranch;
      if isRemoteDefaultRev && !isDefaultBranch then
        remoteRef                                     // case 2, pending
      else if isRemoteDefaultRev then
        cfg.defaultBranchBaseRef                      // case 3, deployed
      else if p.firstParentProbe.OrZero(false) then
        cfg.defaultBranchBaseRef                      // case 4, deployed
      else
        var forkPoint := p.forkPoint.OrZero("");
        if forkPoint != "" then
          forkPoint                                   // case 5, historic
        else
          cfg.defaultBranchBaseRef                    // fallback
  }

  /** The cases of the decision, in the order they are tried. */
  datatype BaseRevCase =
    | PendingUnmerged      // H != C and H is not an ancestor of C
    | PendingEmptyBranch   // H == C on a branch other than the default one
    | DeployedLatest       // H == C
    | DeployedHistoric     // the first-parent probe on (C, HEAD) answered true
    | MergedBranch         // H has a fork point with C
    | Fallback

  function Rank(c: BaseRevCase): nat {
    match c
    case PendingUnmerged => 1
    case PendingEmptyBranch => 2
    case DeployedLatest => 3
    case DeployedHistoric => 4
    case MergedBranch => 5
    case Fallback => 6
  }

  /** The condition under which a case matches, on its own, regardless of earlier cases. */
  predicate Applies(c: BaseRevCase, cfg: GitConfig, p: Probes) {
    match c
    case PendingUnmerged => !AtRemoteDefault(p) && !p.headIsAncestor.OrZero(false)
    case PendingEmptyBranch => AtRemoteDefault(p) && !OnDefaultBranch(cfg, p)
    case DeployedLatest => AtRemoteDefault(p)
    case DeployedHistoric => p.firstParentProbe.OrZero(false)
    case MergedBranch => p.forkPoint.OrZero("") != ""
    case Fallback => true
  }

  /** The revision a case selects. */
  function RevisionOf(c: BaseRevCase, cfg: GitConfig, p: Probes): string {
    match c
    case PendingUnmerged => RemoteDefaultBranchRef(cfg)
    case PendingEmptyBranch => RemoteDefaultBranchRef(cfg)
    case DeployedLatest => cfg.defaultBranchBaseRef
    case DeployedHistoric => cfg.defaultBranchBaseRef
    case MergedBranch => p.forkPoint.OrZero("")
    case Fallback => cfg.defaultBranchBaseRef
  }

  /** First match wins: when `c` matches and no earlier case does, `c` decides the result. */
  lemma FirstMatchWins(cfg: GitConfig, p: Probes, c: BaseRevCase)
    requires Applies(c, cfg, p)
    requires forall d: BaseRevCase :: Rank(d) < Rank(c) ==> !Applies(d, cfg, p)
    ensures DefaultBaseRev(cfg, p) == RevisionOf(c, cfg, p)
  {
    assert Rank(c) > 1 ==> !Applies(PendingUnmerged, cfg, p);
    assert Rank(c) > 2 ==> !Applies(PendingEmptyBranch, cfg, p);
    assert Rank(c) > 3 ==> !Applies(DeployedLatest, cfg, p);
    assert Rank(c) > 4 ==> !Applies(DeployedHistoric, cfg, p);
    assert Rank(c) > 5 ==> !Applies(MergedBranch, cfg, p);
  }

  /** Exhaustiveness: some case always matches (the fallback), so the result is always
      that of the first matching case. */
  lemma SomeCaseDecides(cfg: GitConfig, p: Probes)
    ensures exists c: BaseRevCase :: Applies(c, cfg, p) && DefaultBaseRev(cfg, p) == RevisionOf(c, cfg, p)
              && forall d: BaseRevCase :: Rank(d) < Rank(c) ==> !Applies(d, cfg, p)
  {
    var c :=
      if Applies(PendingUnmerged, cfg, p) then PendingUnmerged
      else if Applies(PendingEmptyBranch, cfg, p) then PendingEmptyBranch
      else if Applies(DeployedLatest, cfg, p) then DeployedLatest
      else if Applies(DeployedHistoric, cfg, p) then DeployedHistoric
      else if Applies(MergedBranch, cfg, p) then MergedBranch
      else Fallback;
    FirstMatchWins(cfg, p, c);
  }

  /** Case 1: HEAD is not the remote default commit and not known to be its ancestor
      (the probe said no or failed): compare with the remote ref. */
  lemma PendingUnmergedUsesRemoteRef(cfg: GitConfig, p: Probes)
    requires p.headRev.OrZero("") == "" || p.headRev.OrZero("") != p.remoteRev.OrZero("")
    requires p.headIsAncestor != Answered(true)
    ensures DefaultBaseRev(cfg, p) == RemoteDefaultBranchRef(cfg)
  {
  }

  /** Cases 2 and 3: HEAD (resolved, non-empty) is the remote default commit. */
  lemma AtRemoteTipCases(cfg: GitConfig, p: Probes)
    requires p.headRev.Answered? && p.headRev.value != ""
    requires p.remoteRev == p.headRev
    ensures p.currentBranch.Answered? && p.currentBranch.value != ""
              && p.currentBranch.value == cfg.defaultBranch
            ==> DefaultBaseRev(cfg, p) == cfg.defaultBranchBaseRef
    ensures !(p.currentBranch.Answered? && p.currentBranch.value != ""
              && p.currentBranch.value == cfg.defaultBranch)
            ==> DefaultBaseRev(cfg, p) == RemoteDefaultBranchRef(cfg)
  {
  }

  /** Cases 4, 5 and the fallback: reached only when HEAD is not the remote default commit
      and the ancestor probe answered true. */
  lemma AncestorCases(cfg: GitConfig, p: Probes)
    requires !AtRemoteDefault(p)
    requires p.headIsAncestor == Answered(true)
    ensures p.firstParentProbe == Answered(true) ==> DefaultBaseRev(cfg, p) == cfg.defaultBranchBaseRef
    ensures p.firstParentProbe != Answered(true) && p.forkPoint.Answered? && p.forkPoint.value != ""
            ==> DefaultBaseRev(cfg, p) == p.forkPoint.value
    ensures p.firstParentProbe != Answered(true) && (p.forkPoint.Errored? || p.forkPoint.value == "")
            ==> DefaultBaseRev(cfg, p) == cfg.defaultBranchBaseRef
  {
  }

  /** Cases 4 to 6 are reachable only through a true ancestor probe or HEAD at the remote
      default commit; otherwise nothing but the remote ref can come out. */
  lemma LaterCasesNeedAncestor(cfg: GitConfig, p: Probes)
    requires DefaultBaseRev(cfg, p) != RemoteDefaultBranchRef(cfg)
    ensures AtRemoteDefault(p) || p.headIsAncestor == Answered(true)
  {
  }

  /** An empty HEAD never counts as the remote default commit, even when the remote
      commit could not be resolved either. */
  lemma EmptyHeadIsNeverAtRemote(cfg: GitConfig, p: Probes)
    requires p.headRev.OrZero("") == ""
    ensures !AtRemoteDefault(p)
    ensures p.headIsAncestor != Answered(true) ==> DefaultBaseRev(cfg, p) == RemoteDefaultBranchRef(cfg)
  {
  }

  /** The result is never empty as long as the configured base ref is not: the remote ref
      always holds a '/', and a fork point is used only when non-empty. */
  lemma BaseRevNonEmpty(cfg: GitConfig, p: Probes)
    requires cfg.defaultBranchBaseRef != ""
    ensures DefaultBaseRev(cfg, p) != ""
  {
    assert RemoteDefaultBranchRef(cfg)[|cfg.defaultRemote|] == '/';
  }

  /** Failed probes never make the decision fail: with every probe failed the result is
      the remote ref (case 1), since a failed ancestor probe reads as false. */
  lemma AllProbesFailed(cfg: GitConfig)
    ensures DefaultBaseRev(cfg, Probes(Errored, Errored, Errored, Errored, Errored, Errored))
            == RemoteDefaultBranchRef(cfg)
  {
  }

  /** The remote ref names its remote and branch unambiguously when the remote name holds
      no '/'. */
  lemma RemoteRefDeterminesParts(a: GitConfig, b: GitConfig)
    requires '/' !in a.defaultRemote && '/' !in b.defaultRemote
    requires RemoteDefaultBranchRef(a) == RemoteDefaultBranchRef(b)
    ensures a.defaultRemote == b.defaultRemote && a.defaultBranch == b.defaultBranch
  {
  }
}

/** The part of a project's root configuration that the project code reads and fills in:
    the `terramate { config { git { ... } } }` blocks, each of which may be absent. */
module ProjectConfig {

  import opened Wrappers

  /** The git block's string options. */
  datatype GitConfig = GitConfig(
    defaultRemote: string,
    defaultBranch: string,
    defaultBranchBaseRef: string)

  datatype RootConfig = RootConfig(git: Option<GitConfig>)

  datatype Terramate = Terramate(config: Option<RootConfig>)

  /** The root node of the configuration tree. */
  datatype Root = Root(terramate: Option<Terramate>)

  /** A git block created from scratch: every string option is still unset. */
  function NewGitConfig(): (g: GitConfig)
    ensures g.defaultRemote == "" && g.defaultBranch == "" && g.defaultBranchBaseRef == ""
  {
    GitConfig("", "", "")
  }

  predicate HasGit(r: Root) {
    r.terramate.Some? && r.terramate.value.config.Some? && r.terramate.value.config.value.git.Some?
  }

  function Git(r: Root): GitConfig
    requires HasGit(r)
  {
    r.terramate.value.config.value.git.value
  }
}

/** The Dockerfile rewrite done before the build: when the repository's
    sources sit under `data/<repo>`, the generic `COPY . .` and `ADD . .`
    are pointed at that directory, unless the file already names it. */
module Dockerfile {
  import opened Text

  const CopyAll := "COPY . ."
  const AddAll := "ADD . ."

  /** `data/<repo>`, the directory holding the repository's sources. */
  function RepoMarker(repo: string): string {
    "data/" + repo
  }

  function CopyFromRepo(repo: string): string {
    "COPY " + RepoMarker(repo) + "/ ."
  }

  function AddFromRepo(repo: string): string {
    "ADD " + RepoMarker(repo) + "/ ."
  }

  /** One guarded replacement: every `pattern` becomes `replacement` when
      the text has `pattern` and does not yet name `data/<repo>`. */
  function RewriteOne(content: string, repo: string, pattern: string, replacement: string): (r: string)
    requires |pattern| > 0
    ensures !Contains(content, pattern) || Contains(content, RepoMarker(repo)) ==> r == content
  {
    if Contains(content, pattern) && !Contains(content, RepoMarker(repo))
    then ReplaceAll(content, pattern, replacement)
    else content
  }

  /** The COPY replacement, then the ADD replacement checked against the
      text the COPY replacement produced. */
  function RewriteCopyPatterns(content: string, repo: string): (r: string)
    ensures Contains(content, RepoMarker(repo)) ==> r == content
    ensures !Contains(content, CopyAll) && !Contains(content, AddAll) ==> r == content
  {
    var afterCopy := RewriteOne(content, repo, CopyAll, CopyFromRepo(repo));
    RewriteOne(afterCopy, repo, AddAll, AddFromRepo(repo))
  }

  /** Which Dockerfile the build is given. */
  datatype DockerfileChoice = Original | Temporary(content: string)

  /** The rewrite applies only when the sources directory exists; a
      temporary file is written only when the rewrite changed the text. */
  function ChooseDockerfile(content: string, repo: string, repoDirExists: bool): (r: DockerfileChoice)
    ensures r.Temporary? ==> r.content == RewriteCopyPatterns(content, repo) && r.content != content
    ensures !repoDirExists ==> r == Original
  {
    if repoDirExists then
      var modified := RewriteCopyPatterns(content, repo);
      if modified != content then Temporary(modified) else Original
    else Original
  }

  // ---------------------------------------------------------------------
  // Properties

  /** A replacement that fires leaves the text naming `data/<repo>`. */
  lemma RewriteOneMarks(content: string, repo: string, pattern: string, word: string)
    requires |pattern| > 0
    requires Contains(content, pattern) && !Contains(content, RepoMarker(repo))
    ensures Contains(RewriteOne(content, repo, pattern, word + RepoMarker(repo) + "/ ."), RepoMarker(repo))
  {
    var q := word + RepoMarker(repo) + "/ .";
    ReplaceAllIntroduces(content, pattern, q);
    ContainsInfix(ReplaceAll(content, pattern, q), word, RepoMarker(repo), "/ .");
  }

  /** Once `COPY . .` was replaced, the ADD replacement no longer fires:
      the ADD check reads the already modified text. */
  lemma CopyBlocksAdd(content: string, repo: string)
    requires Contains(content, CopyAll) && !Contains(content, RepoMarker(repo))
    ensures RewriteCopyPatterns(content, repo) == ReplaceAll(content, CopyAll, CopyFromRepo(repo))
  {
    RewriteOneMarks(content, repo, CopyAll, "COPY ");
  }

  /** The rewrite changes the text exactly when the text does not name
      `data/<repo>` and has `COPY . .` or `ADD . .`; a changed text names it. */
  lemma RewriteChangesIff(content: string, repo: string)
    ensures RewriteCopyPatterns(content, repo) != content <==>
      !Contains(content, RepoMarker(repo)) && (Contains(content, CopyAll) || Contains(content, AddAll))
    ensures RewriteCopyPatterns(content, repo) != content ==>
      Contains(RewriteCopyPatterns(content, repo), RepoMarker(repo))
  {
    var marker := RepoMarker(repo);
    if !Contains(content, marker) {
      if Contains(content, CopyAll) {
        CopyBlocksAdd(content, repo);
        RewriteOneMarks(content, repo, CopyAll, "COPY ");
      } else if Contains(content, AddAll) {
        RewriteOneMarks(content, repo, AddAll, "ADD ");
      }
    }
  }

  /** Rewriting twice is rewriting once. */
  lemma RewriteIdempotent(content: string, repo: string)
    ensures RewriteCopyPatterns(RewriteCopyPatterns(content, repo), repo) == RewriteCopyPatterns(content, repo)
  {
    var r := RewriteCopyPatterns(content, repo);
    RewriteChangesIff(content, repo);
  }

  /** A temporary Dockerfile is used exactly when the sources directory
      exists and the rewrite has something to change. */
  lemma TemporaryIff(content: string, repo: string, repoDirExists: bool)
    ensures ChooseDockerfile(content, repo, repoDirExists).Temporary? <==>
      repoDirExists && !Contains(content, RepoMarker(repo)) &&
      (Contains(content, CopyAll) || Contains(content, AddAll))
  {
    RewriteChangesIff(content, repo);
  }
}

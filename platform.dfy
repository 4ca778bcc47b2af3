/**
 * The two platform facts the scaffolder leans on: the line terminator it
 * appends (`os.EOL`) and how a project-relative path is placed under the
 * project root (`path.join(root, rel)`).
 */
module Platform {

  /** `os.EOL` on POSIX systems. */
  const EOL: string := "\n"

  /** `path.join(root, rel)` for a resolved root and a relative path that
      needs no normalisation. */
  function Join(root: string, rel: string): (p: string)
    ensures |p| == |root| + 1 + |rel|
    ensures p[..|root|] == root && p[|root|] == '/' && p[|root| + 1..] == rel
  {
    root + "/" + rel
  }

  /** Two relative paths land on the same file only if they are the same path. */
  lemma JoinInjective(root: string, a: string, b: string)
    ensures Join(root, a) == Join(root, b) <==> a == b
  {
    if Join(root, a) == Join(root, b) {
      assert a == Join(root, a)[|root| + 1..];
    }
  }
}

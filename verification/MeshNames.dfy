/** The names the mesh uses: node names, local model names and the `share/<node>/<model>` names of exports. */
module MeshNames {

  predicate IsLower(c: char) { 'a' <= c <= 'z' }

  predicate IsUpper(c: char) { 'A' <= c <= 'Z' }

  predicate IsDigit(c: char) { '0' <= c <= '9' }

  predicate IsHex(c: char) { IsDigit(c) || 'a' <= c <= 'f' }

  /** One to 63 lower-case letters, digits and hyphens, with no hyphen at either end. */
  predicate ValidName(s: string) {
    && 1 <= |s| <= 63
    && s[0] != '-' && s[|s| - 1] != '-'
    && forall i :: 0 <= i < |s| ==> IsLower(s[i]) || IsDigit(s[i]) || s[i] == '-'
  }

  /** One to 128 letters, digits, dots, underscores and hyphens, starting with a letter or digit. */
  predicate ValidModel(s: string) {
    && 1 <= |s| <= 128
    && s[0] !in ['.', '_', '-']
    && forall i :: 0 <= i < |s| ==> IsLower(s[i]) || IsUpper(s[i]) || IsDigit(s[i]) || s[i] in ['.', '_', '-']
  }

  /** A string of `n` lower-case hexadecimal digits. */
  predicate HexDigits(s: string, n: nat) {
    |s| == n && forall i :: 0 <= i < |s| ==> IsHex(s[i])
  }

  predicate StartsWith(s: string, prefix: string) {
    |prefix| <= |s| && s[..|prefix|] == prefix
  }

  /** What the names of all exports of a node start with. */
  function Prefix(node: string): string {
    "share/" + node + "/"
  }

  /** `id` is `share/<node>/<model>` for a valid local model name. */
  predicate Owns(node: string, id: string) {
    StartsWith(id, Prefix(node)) && ValidModel(id[|Prefix(node)|..])
  }

  lemma SlashPosition(node: string, id: string)
    requires ValidName(node) && StartsWith(id, Prefix(node))
    ensures |id| > 6 + |node| && id[6 + |node|] == '/' && id[6..6 + |node|] == node
    ensures forall i :: 6 <= i < 6 + |node| ==> id[i] != '/'
  {
    var prefix := Prefix(node);
    assert forall i :: 0 <= i < |prefix| ==> id[i] == id[..|prefix|][i];
    assert prefix[6 + |node|] == '/';
    assert forall i :: 6 <= i < 6 + |node| ==> prefix[i] == node[i - 6];
  }

  /** No export name has two owners: a node name has no slash, so it ends where the second slash stands. */
  lemma OneOwner(a: string, b: string, id: string)
    requires ValidName(a) && ValidName(b) && StartsWith(id, Prefix(a)) && StartsWith(id, Prefix(b))
    ensures a == b
  {
    SlashPosition(a, id);
    SlashPosition(b, id);
    assert |a| == |b|;
  }

  /** An export name has exactly two slashes, so nothing can be nested below a model. */
  lemma NoFurtherSlash(node: string, id: string)
    requires ValidName(node) && Owns(node, id)
    ensures '/' !in id[|Prefix(node)|..]
    ensures id == Prefix(node) + id[|Prefix(node)|..]
  {
  }

  /** Two models of one node have different export names. */
  lemma ExportNameRoundTrip(node: string, model: string)
    ensures (Prefix(node) + model)[|Prefix(node)|..] == model && StartsWith(Prefix(node) + model, Prefix(node))
  {
  }
}

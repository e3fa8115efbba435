/** Key derivation: how a secret or parameter name, or a JSON field name, becomes the
    name of an environment variable (cmd/awsenvsec/main.go, lines 140, 145 and 161). */
module Keys {

  /** ASCII upper-casing of one character; every other character is left alone. */
  function UpperChar(c: char): char
  {
    if 'a' <= c <= 'z' then (c as int - 32) as char else c
  }

  /** No lower-case ASCII letter occurs in `s`. */
  predicate IsUpper(s: string)
  {
    forall i :: 0 <= i < |s| ==> !('a' <= s[i] <= 'z')
  }

  /** Upper-cases a whole string, character by character (strings.ToUpper, ASCII only). */
  function ToUpper(s: string): (r: string)
    ensures |r| == |s|
    ensures forall i :: 0 <= i < |s| ==> r[i] == UpperChar(s[i])
    ensures IsUpper(r)
  {
    if s == [] then [] else [UpperChar(s[0])] + ToUpper(s[1..])
  }

  /** strings.LastIndex for a one-character separator: the index of the last `c` in `s`,
      or -1 when `s` holds no `c`. */
  function LastIndex(s: string, c: char): (r: int)
    ensures -1 <= r < |s|
    ensures r >= 0 ==> s[r] == c
    ensures forall j :: r < j < |s| ==> s[j] != c
  {
    if s == [] then -1
    else if s[|s| - 1] == c then |s| - 1
    else LastIndex(s[..|s| - 1], c)
  }

  /** The key of a plain secret or of a parameter: the part of the name after its last
      `/`, upper-cased. With no `/` in the name, LastIndex gives -1 and the whole name is used. */
  function DeriveKey(name: string): (k: string)
    ensures '/' !in k
    ensures IsUpper(k)
    ensures |k| <= |name|
  {
    var suffix := name[LastIndex(name, '/') + 1..];
    NoSlashAfterUpper(suffix);
    ToUpper(suffix)
  }

  /** Upper-casing neither creates nor removes a `/`. */
  lemma NoSlashAfterUpper(s: string)
    requires forall i :: 0 <= i < |s| ==> s[i] != '/'
    ensures '/' !in ToUpper(s)
  {
    var u := ToUpper(s);
    forall i | 0 <= i < |u|
      ensures u[i] != '/'
    {
      assert u[i] == UpperChar(s[i]);
    }
  }

  /** Upper-casing twice is upper-casing once. */
  lemma ToUpperIdempotent(s: string)
    ensures ToUpper(ToUpper(s)) == ToUpper(s)
  {
  }

  /** A hierarchical name `dir/base` gives the upper-cased `base`, whatever `dir` holds. */
  lemma DeriveKeyAfterLastSlash(dir: string, base: string)
    requires '/' !in base
    ensures DeriveKey(dir + "/" + base) == ToUpper(base)
  {
    var name := dir + "/" + base;
    var r := LastIndex(name, '/');
    assert name[|dir|] == '/';
    assert r == |dir|;
    assert name[r + 1..] == base;
  }

  /** A name without `/` is used whole. */
  lemma DeriveKeyWithoutSlash(name: string)
    requires '/' !in name
    ensures DeriveKey(name) == ToUpper(name)
  {
    assert LastIndex(name, '/') == -1;
    assert name[0..] == name;
  }

  /** A string already in upper case is left as it is. */
  lemma UpperUnchanged(s: string)
    requires IsUpper(s)
    ensures ToUpper(s) == s
  {
  }

  /** A path whose last segment is already upper-case gives that segment unchanged. */
  lemma DeriveKeyUpperSegment(name: string, dir: string, base: string)
    requires name == dir + "/" + base
    requires forall i :: 0 <= i < |base| ==> base[i] != '/' && !('a' <= base[i] <= 'z')
    ensures DeriveKey(name) == base
  {
    DeriveKeyAfterLastSlash(dir, base);
    UpperUnchanged(base);
  }

  /** A typical hierarchical name: `product/dev/DB_PASSWORD` gives `DB_PASSWORD`. */
  lemma DeriveKeyExample()
    ensures DeriveKey("product/dev/DB_PASSWORD") == "DB_PASSWORD"
  {
    DeriveKeyUpperSegment("product/dev/DB_PASSWORD", "product/dev", "DB_PASSWORD");
  }
}

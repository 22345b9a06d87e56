/** The dotted paths the preview and list traversals build while they walk a
    token document: `prefix ? `${prefix}.${key}` : key` at every level. */
module Paths {
  import opened Strings

  /** The path of `key` below `prefix`; the empty prefix is the root. */
  function ChildPath(prefix: string, key: string): string
  {
    if prefix == "" then key else prefix + "." + key
  }

  /** The path reached from `prefix` through the keys `parts`, one level at a time. */
  function FoldPath(prefix: string, parts: seq<string>): string
    decreases |parts|
  {
    if parts == [] then prefix else FoldPath(ChildPath(prefix, parts[0]), parts[1..])
  }

  /** Below a non-empty prefix, the keys are joined with dots after it. */
  lemma {:induction false} FoldPathBelow(prefix: string, parts: seq<string>)
    requires prefix != "" && parts != []
    ensures FoldPath(prefix, parts) == prefix + "." + Join(parts, ".")
    decreases |parts|
  {
    if |parts| > 1 {
      FoldPathBelow(prefix + "." + parts[0], parts[1..]);
    }
  }

  /** From the root, a path whose first key is not empty is its keys joined
      with dots. */
  lemma FoldPathJoin(parts: seq<string>)
    requires parts != [] && parts[0] != ""
    ensures FoldPath("", parts) == Join(parts, ".")
  {
    if |parts| > 1 {
      FoldPathBelow(parts[0], parts[1..]);
    }
  }

  /** Different keys below the same prefix give different paths. */
  lemma ChildPathInjective(prefix: string, a: string, b: string)
    requires ChildPath(prefix, a) == ChildPath(prefix, b)
    ensures a == b
  {
    if prefix != "" {
      var s := prefix + ".";
      assert a == (s + a)[|s|..];
      assert b == (s + b)[|s|..];
    }
  }

  /** The part of a string before its first dot. */
  function Head(s: string): string
  {
    Split(s, '.')[0]
  }

  lemma HeadOf(f: string, x: string)
    requires '.' !in f
    ensures Head(f + "." + x) == f
  {
    assert f + "." + x == f + ['.'] + x;
    SplitAppend(f, x, '.');
    SplitWithoutSeparator(f, '.');
  }

  /** The key, directly below `prefix`, under which a path lies. */
  function TopKey(prefix: string, path: string): string
  {
    if prefix == "" then Head(path)
    else if |path| > |prefix| then Head(path[|prefix| + 1..])
    else ""
  }

  /** A path two levels below `prefix`, through a key without dots, lies
      under that key. */
  lemma TopKeyOf(prefix: string, f: string, x: string)
    requires '.' !in f && f != ""
    ensures TopKey(prefix, ChildPath(ChildPath(prefix, f), x)) == f
  {
    if prefix == "" {
      HeadOf(f, x);
    } else {
      var p := ChildPath(ChildPath(prefix, f), x);
      assert p == prefix + "." + (f + "." + x);
      assert p[|prefix| + 1..] == f + "." + x;
      HeadOf(f, x);
    }
  }
}

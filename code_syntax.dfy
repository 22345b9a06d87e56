/** The per-platform identifiers stamped on every token: a CSS custom-property
    reference for the web, an Android resource name and an iOS camel-case
    identifier, each derived from the token's dotted path
    (packages/core/src/code-syntax.ts). All three are total string rewrites. */
module CodeSyntax {
  import opened Strings

  /** The identifier triple of one token (`{ WEB, ANDROID, iOS }`). */
  datatype Syntax = Syntax(web: string, android: string, ios: string)

  /** `s.replace(/<from>/g, to)` for a single character. */
  function ReplaceChar(s: string, from: char, to: char): (r: string)
    ensures |r| == |s|
    ensures forall i :: 0 <= i < |s| ==> r[i] == if s[i] == from then to else s[i]
  {
    seq(|s|, i requires 0 <= i < |s| => if s[i] == from then to else s[i])
  }

  /** The web identifier: `var(--` + the path with every `.` turned into `-` + `)`.
      Nothing else in the path changes. */
  function WebSyntax(path: string): (r: string)
    ensures |r| == |path| + 7
    ensures r[..6] == "var(--" && r[|r| - 1] == ')'
    ensures forall i :: 0 <= i < |path| ==> r[6 + i] == if path[i] == '.' then '-' else path[i]
  {
    "var(--" + ReplaceChar(path, '.', '-') + ")"
  }

  /** The Android identifier: the path with both `.` and `-` turned into `_`.
      It has the path's length, holds neither separator, and keeps every other
      character where it was. */
  function AndroidSyntax(path: string): (r: string)
    ensures |r| == |path|
    ensures forall i :: 0 <= i < |r| ==> r[i] != '.' && r[i] != '-'
    ensures forall i :: 0 <= i < |path| ==> r[i] == if path[i] == '.' || path[i] == '-' then '_' else path[i]
  {
    ReplaceChar(ReplaceChar(path, '.', '_'), '-', '_')
  }

  /** The characters `/[.-]+/` splits on. */
  predicate IsSep(c: char)
  {
    c == '.' || c == '-'
  }

  predicate SepFree(s: string)
  {
    forall i :: 0 <= i < |s| ==> !IsSep(s[i])
  }

  predicate AllSep(s: string)
  {
    forall i :: 0 <= i < |s| ==> IsSep(s[i])
  }

  /** Drops the separators at the front of `s`. */
  function SkipSeps(s: string): (r: string)
    ensures |r| <= |s|
    ensures r == [] || !IsSep(r[0])
    ensures s != [] && IsSep(s[0]) ==> |r| < |s|
    decreases |s|
  {
    if s != [] && IsSep(s[0]) then SkipSeps(s[1..]) else s
  }

  /** `s.split(/[.-]+/)`: one break per maximal run of separators; a leading or
      trailing run yields an empty first or last piece. */
  function SplitRuns(s: string): (parts: seq<string>)
    ensures |parts| >= 1
    ensures forall i :: 0 <= i < |parts| ==> SepFree(parts[i])
    decreases |s|
  {
    if s == [] then [""]
    else if IsSep(s[0]) then [""] + SplitRuns(SkipSeps(s))
    else
      var rest := SplitRuns(s[1..]);
      [[s[0]] + rest[0]] + rest[1..]
  }

  /** `part.charAt(0).toUpperCase() + part.slice(1)`. */
  function Capitalize(part: string): string
  {
    if part == [] then [] else [UpperChar(part[0])] + part[1..]
  }

  /** `parts.join("")`. */
  function Concat(parts: seq<string>): string
    decreases |parts|
  {
    if parts == [] then "" else parts[0] + Concat(parts[1..])
  }

  /** `parts.map(Capitalize)`. */
  function CapitalizeAll(parts: seq<string>): (r: seq<string>)
    ensures |r| == |parts|
    ensures forall i :: 0 <= i < |parts| ==> r[i] == Capitalize(parts[i])
  {
    seq(|parts|, i requires 0 <= i < |parts| => Capitalize(parts[i]))
  }

  /** The iOS identifier: the pieces of the path between separator runs, the
      first kept as it is and every later one with its first letter upper-cased,
      concatenated. */
  function IosSyntax(path: string): string
  {
    var parts := SplitRuns(path);
    parts[0] + Concat(CapitalizeAll(parts[1..]))
  }

  /** `codeSyntax(path)`: the three identifiers of one path. */
  function CodeSyntaxOf(path: string): Syntax
  {
    Syntax(WebSyntax(path), AndroidSyntax(path), IosSyntax(path))
  }

  // ---------------------------------------------------------------------
  // properties of the iOS identifier
  // ---------------------------------------------------------------------

  lemma {:induction false} ConcatSepFree(parts: seq<string>)
    requires forall i :: 0 <= i < |parts| ==> SepFree(parts[i])
    ensures SepFree(Concat(parts))
    decreases |parts|
  {
    if parts != [] {
      ConcatSepFree(parts[1..]);
    }
  }

  /** The iOS identifier never holds a `.` or a `-`. */
  lemma IosSyntaxSepFree(path: string)
    ensures SepFree(IosSyntax(path))
  {
    var parts := SplitRuns(path);
    var caps := CapitalizeAll(parts[1..]);
    forall i | 0 <= i < |caps| ensures SepFree(caps[i]) {
      var p := parts[1..][i];
      if p != [] {
        CaseKeepsPunctuation(p[0]);
      }
    }
    ConcatSepFree(caps);
  }

  /** A sep-free prefix glues onto the first piece of what follows it, when
      that starts with a separator or is empty. */
  lemma {:induction false} SplitRunsPrefix(x: string, t: string)
    requires SepFree(x)
    requires t == [] || IsSep(t[0])
    ensures SplitRuns(x + t) == [x + SplitRuns(t)[0]] + SplitRuns(t)[1..]
    decreases |x|
  {
    if x != [] {
      assert (x + t)[1..] == x[1..] + t;
      SplitRunsPrefix(x[1..], t);
      assert [x[0]] + (x[1..] + SplitRuns(t)[0]) == x + SplitRuns(t)[0];
    } else {
      assert x + t == t;
    }
  }

  /** A run of separators before a piece that does not start with one is skipped whole. */
  lemma {:induction false} SkipRun(r: string, y: string)
    requires AllSep(r)
    requires y == [] || !IsSep(y[0])
    ensures SkipSeps(r + y) == y
    decreases |r|
  {
    if r != [] {
      assert (r + y)[1..] == r[1..] + y;
      SkipRun(r[1..], y);
    } else {
      assert r + y == y;
    }
  }

  /** A path without separators is one piece. */
  lemma {:induction false} SplitRunsSepFree(x: string)
    requires SepFree(x)
    ensures SplitRuns(x) == [x]
    decreases |x|
  {
    if x != [] {
      SplitRunsSepFree(x[1..]);
      assert [x[0]] + x[1..] == x;
    }
  }

  /** The first piece is kept verbatim: a path without separators is its own
      iOS identifier (it is not lower-cased). */
  lemma IosSyntaxFirstPiece(x: string)
    requires SepFree(x)
    ensures IosSyntax(x) == x
  {
    SplitRunsSepFree(x);
  }

  lemma CapitalizeAppend(a: string, b: string)
    requires a != []
    ensures Capitalize(a + b) == Capitalize(a) + b
  {
    assert (a + b)[1..] == a[1..] + b;
  }

  /** After a sep-free piece `x`, any non-empty run of separators acts as one
      break, and the rest of the path continues capitalised:
      iOS(x + run + y) == x + Capitalize(iOS(y)). */
  lemma IosSyntaxBreak(x: string, run: string, y: string)
    requires SepFree(x)
    requires run != [] && AllSep(run)
    requires y == [] || !IsSep(y[0])
    ensures IosSyntax(x + run + y) == x + Capitalize(IosSyntax(y))
  {
    var t := run + y;
    assert x + run + y == x + t;
    SplitRunsPrefix(x, t);
    SkipRun(run, y);
    var ys := SplitRuns(y);
    assert SplitRuns(t) == [""] + ys;
    assert SplitRuns(t)[0] == "" && SplitRuns(t)[1..] == ys;
    assert x + "" == x;
    var parts := SplitRuns(x + t);
    assert parts == [x] + ys;
    assert parts[1..] == ys;
    assert CapitalizeAll(ys) == [Capitalize(ys[0])] + CapitalizeAll(ys[1..]);
    if y == [] {
      assert ys == [""];
    } else {
      assert ys[0] != [] && ys[0][0] == y[0];
      CapitalizeAppend(ys[0], Concat(CapitalizeAll(ys[1..])));
    }
  }

  /** The same with a single separator: the later piece has only its first
      character upper-cased. */
  lemma IosSyntaxTwoPieces(x: string, sep: char, y: string)
    requires SepFree(x) && SepFree(y) && IsSep(sep)
    ensures IosSyntax(x + [sep] + y) == x + Capitalize(y)
  {
    IosSyntaxBreak(x, [sep], y);
    IosSyntaxFirstPiece(y);
  }

  // ---------------------------------------------------------------------
  // the example of the source's doc comment
  // ---------------------------------------------------------------------

  /** The pieces of a Language token path, `domain.name.tone.lang--t--y--name`
      with a one-segment domain, rewritten for the web. */
  lemma WebOfPieces(a: string, b: string, c: string, e: string, f: string, g: string, h: string)
    requires '.' !in a && '.' !in b && '.' !in c && '.' !in e && '.' !in f && '.' !in g && '.' !in h
    ensures WebSyntax(a + "." + b + "." + c + "." + e + "--" + f + "--" + g + "--" + h)
         == "var(--" + a + "-" + b + "-" + c + "-" + e + "--" + f + "--" + g + "--" + h + ")"
  {
    var r := WebSyntax(a + "." + b + "." + c + "." + e + "--" + f + "--" + g + "--" + h);
    var u := "var(--" + a + "-" + b + "-" + c + "-" + e + "--" + f + "--" + g + "--" + h + ")";
    assert |r| == |u|;
    forall i | 0 <= i < |r| ensures r[i] == u[i] {
    }
  }

  lemma AndroidOfPieces(a: string, b: string, c: string, e: string, f: string, g: string, h: string)
    requires SepFree(a) && SepFree(b) && SepFree(c) && SepFree(e) && SepFree(f) && SepFree(g) && SepFree(h)
    ensures AndroidSyntax(a + "." + b + "." + c + "." + e + "--" + f + "--" + g + "--" + h)
         == a + "_" + b + "_" + c + "_" + e + "__" + f + "__" + g + "__" + h
  {
    var r := AndroidSyntax(a + "." + b + "." + c + "." + e + "--" + f + "--" + g + "--" + h);
    var u := a + "_" + b + "_" + c + "_" + e + "__" + f + "__" + g + "__" + h;
    assert |r| == |u|;
    forall i | 0 <= i < |r| ensures r[i] == u[i] {
    }
  }

  /** One more piece in front: if iOS(y) is the piece `y0` followed by `rest`,
      then iOS(x + run + y) is `x`, the capitalised `y0`, then `rest`. */
  lemma IosPrepend(x: string, run: string, y: string, y0: string, rest: string)
    requires SepFree(x) && run != [] && AllSep(run)
    requires y != [] && !IsSep(y[0])
    requires y0 != [] && IosSyntax(y) == y0 + rest
    ensures IosSyntax(x + run + y) == x + (Capitalize(y0) + rest)
  {
    IosSyntaxBreak(x, run, y);
    CapitalizeAppend(y0, rest);
  }

  /** The iOS identifier of a token key `e--f--g--h`. */
  lemma IosOfKey(e: string, f: string, g: string, h: string)
    requires SepFree(e) && SepFree(f) && SepFree(g) && SepFree(h)
    requires f != [] && g != [] && h != []
    ensures IosSyntax(e + "--" + (f + "--" + (g + "--" + h)))
         == e + (Capitalize(f) + (Capitalize(g) + (Capitalize(h) + [])))
  {
    IosSyntaxFirstPiece(h);
    assert IosSyntax(h) == h + [];
    var y5 := g + "--" + h;
    IosPrepend(g, "--", h, h, []);
    var r5 := Capitalize(h) + [];
    var y4 := f + "--" + y5;
    IosPrepend(f, "--", y5, g, r5);
    var r4 := Capitalize(g) + r5;
    IosPrepend(e, "--", y4, f, r4);
  }

  /** The iOS identifier of `b.c.e--f--g--h`, in the nesting the breaks produce. */
  lemma IosOfTail(b: string, c: string, e: string, f: string, g: string, h: string)
    requires SepFree(b) && SepFree(c) && SepFree(e) && SepFree(f) && SepFree(g) && SepFree(h)
    requires c != [] && e != [] && f != [] && g != [] && h != []
    ensures IosSyntax(b + "." + (c + "." + (e + "--" + (f + "--" + (g + "--" + h)))))
         == b + (Capitalize(c) + (Capitalize(e) + (Capitalize(f) + (Capitalize(g) + (Capitalize(h) + [])))))
  {
    var y3 := e + "--" + (f + "--" + (g + "--" + h));
    var r3 := Capitalize(f) + (Capitalize(g) + (Capitalize(h) + []));
    IosOfKey(e, f, g, h);
    var y2 := c + "." + y3;
    IosPrepend(c, ".", y3, e, r3);
    IosPrepend(b, ".", y2, c, Capitalize(e) + r3);
  }

  /** The iOS identifier of a Language token path `a.b.c.e--f--g--h`. */
  lemma IosOfPieces(a: string, b: string, c: string, e: string, f: string, g: string, h: string)
    requires SepFree(a) && SepFree(b) && SepFree(c) && SepFree(e) && SepFree(f) && SepFree(g) && SepFree(h)
    requires b != [] && c != [] && e != [] && f != [] && g != [] && h != []
    ensures IosSyntax(a + "." + b + "." + c + "." + e + "--" + f + "--" + g + "--" + h)
         == a + Capitalize(b) + Capitalize(c) + Capitalize(e) + Capitalize(f) + Capitalize(g) + Capitalize(h)
  {
    var y1 := b + "." + (c + "." + (e + "--" + (f + "--" + (g + "--" + h))));
    var r1 := Capitalize(c) + (Capitalize(e) + (Capitalize(f) + (Capitalize(g) + (Capitalize(h) + []))));
    IosOfTail(b, c, e, f, g, h);
    IosPrepend(a, ".", y1, b, r1);
    PiecesAssoc(a, ".", b, ".", c, ".", e, "--", f, "--", g, "--", h);
    ConcatAssoc(a, Capitalize(b), Capitalize(c), Capitalize(e), Capitalize(f), Capitalize(g), Capitalize(h));
  }

  lemma ConcatAssoc(a: string, b: string, c: string, e: string, f: string, g: string, h: string)
    ensures a + (b + (c + (e + (f + (g + (h + [])))))) == a + b + c + e + f + g + h
  {
  }

  lemma PiecesAssoc(a: string, s1: string, b: string, s2: string, c: string, s3: string, e: string,
                    s4: string, f: string, s5: string, g: string, s6: string, h: string)
    ensures a + s1 + b + s2 + c + s3 + e + s4 + f + s5 + g + s6 + h
         == a + s1 + (b + s2 + (c + s3 + (e + s4 + (f + s5 + (g + s6 + h)))))
  {
  }

  /** The example of the source's doc comment: the path of the Language token
      of domain "legal", name "copyright", tone neutral and type title, written
      piece by piece. */
  const ExamplePath := "legal" + "." + "copyright" + "." + "neutral" + "." + "lang" + "--" + "neut" + "--" + "title" + "--" + "copyright"

  lemma WebExample()
    ensures WebSyntax(ExamplePath)
         == "var(--" + "legal" + "-" + "copyright" + "-" + "neutral" + "-" + "lang" + "--" + "neut" + "--" + "title" + "--" + "copyright" + ")"
  {
    WebOfPieces("legal", "copyright", "neutral", "lang", "neut", "title", "copyright");
  }

  lemma AndroidExample()
    ensures AndroidSyntax(ExamplePath)
         == "legal" + "_" + "copyright" + "_" + "neutral" + "_" + "lang" + "__" + "neut" + "__" + "title" + "__" + "copyright"
  {
    AndroidOfPieces("legal", "copyright", "neutral", "lang", "neut", "title", "copyright");
  }

  lemma IosExample()
    ensures IosSyntax(ExamplePath) == "legal" + "Copyright" + "Neutral" + "Lang" + "Neut" + "Title" + "Copyright"
  {
    IosOfPieces("legal", "copyright", "neutral", "lang", "neut", "title", "copyright");
    CapitalizeExample();
  }

  lemma CapitalizeExample()
    ensures Capitalize("copyright") == "Copyright" && Capitalize("neutral") == "Neutral"
    ensures Capitalize("lang") == "Lang" && Capitalize("neut") == "Neut" && Capitalize("title") == "Title"
  {
  }

  /** The three identifiers of the doc comment's example, written piece by piece. */
  lemma CodeSyntaxExample()
    ensures CodeSyntaxOf(ExamplePath)
         == Syntax("var(--" + "legal" + "-" + "copyright" + "-" + "neutral" + "-" + "lang" + "--" + "neut" + "--" + "title" + "--" + "copyright" + ")",
                   "legal" + "_" + "copyright" + "_" + "neutral" + "_" + "lang" + "__" + "neut" + "__" + "title" + "__" + "copyright",
                   "legal" + "Copyright" + "Neutral" + "Lang" + "Neut" + "Title" + "Copyright")
  {
    WebExample();
    AndroidExample();
    IosExample();
  }
}

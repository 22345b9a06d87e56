/** The two fixed catalogues that drive every loop of the builder and the
    handlers (packages/core/src/constants.ts): six tones and six content types,
    each with its full name, its abbreviation and the token file of its layer,
    plus the Language file and the two full-name-to-abbreviation records. */
module Constants {
  import opened Wrappers
  import opened Assoc

  /** A tone or a type: `{ full, abbr, file }`. */
  datatype Definition = Definition(full: string, abbr: string, file: string)

  const TONES: seq<Definition> := [
    Definition("neutral", "neut", "Tone.Neutral.tokens.json"),
    Definition("formal", "form", "Tone.Formal.tokens.json"),
    Definition("playful", "play", "Tone.Playful.tokens.json"),
    Definition("minimal", "mini", "Tone.Minimal.tokens.json"),
    Definition("witty", "witt", "Tone.Witty.tokens.json"),
    Definition("quirky", "quirk", "Tone.Quirky.tokens.json")
  ]

  const TYPES: seq<Definition> := [
    Definition("title", "title", "Type.Title.tokens.json"),
    Definition("subtitle", "subt", "Type.Subtitle.tokens.json"),
    Definition("description", "desc", "Type.Description.tokens.json"),
    Definition("caption", "capt", "Type.Caption.tokens.json"),
    Definition("abbreviation", "abbr", "Type.Abbreviation.tokens.json"),
    Definition("emoji", "emoji", "Type.Emoji.tokens.json")
  ]

  const LANGUAGE_FILE: string := "Language.English.tokens.json"

  function Fulls(defs: seq<Definition>): (r: seq<string>)
    ensures |r| == |defs| && forall i :: 0 <= i < |defs| ==> r[i] == defs[i].full
  {
    seq(|defs|, i requires 0 <= i < |defs| => defs[i].full)
  }

  function Abbrs(defs: seq<Definition>): (r: seq<string>)
    ensures |r| == |defs| && forall i :: 0 <= i < |defs| ==> r[i] == defs[i].abbr
  {
    seq(|defs|, i requires 0 <= i < |defs| => defs[i].abbr)
  }

  /** `defs.map((t) => [t.full, t.abbr])`. */
  function AbbrEntries(defs: seq<Definition>): (r: seq<(string, string)>)
    ensures |r| == |defs| && forall i :: 0 <= i < |defs| ==> r[i] == (defs[i].full, defs[i].abbr)
  {
    seq(|defs|, i requires 0 <= i < |defs| => (defs[i].full, defs[i].abbr))
  }

  /** `Object.fromEntries(entries)`: each pair is assigned in order, so a later
      pair with the same key wins. */
  function FromEntries(entries: seq<(string, string)>): (r: seq<(string, string)>)
    ensures DistinctKeys(r)
  {
    PutAllDistinct([], entries);
    PutAll([], entries)
  }

  const TONE_ABBR_MAP: seq<(string, string)> := FromEntries(AbbrEntries(TONES))

  const TYPE_ABBR_MAP: seq<(string, string)> := FromEntries(AbbrEntries(TYPES))

  predicate Distinct(xs: seq<string>)
  {
    forall i, j :: 0 <= i < j < |xs| ==> xs[i] != xs[j]
  }

  /** The layer file names in the order the handlers visit them: Language, the
      six Type files, the six Tone files. */
  function LayerFiles(): (r: seq<string>)
    ensures |r| == 1 + |TYPES| + |TONES|
    ensures r[0] == LANGUAGE_FILE
    ensures forall j :: 0 <= j < |TYPES| ==> r[1 + j] == TYPES[j].file
    ensures forall i :: 0 <= i < |TONES| ==> r[1 + |TYPES| + i] == TONES[i].file
  {
    [LANGUAGE_FILE]
      + seq(|TYPES|, j requires 0 <= j < |TYPES| => TYPES[j].file)
      + seq(|TONES|, i requires 0 <= i < |TONES| => TONES[i].file)
  }

  // ---------------------------------------------------------------------
  // facts about the catalogues
  // ---------------------------------------------------------------------

  /** Six tones, in the order the handlers and the builder visit them. */
  lemma TonesInOrder()
    ensures Fulls(TONES) == ["neutral", "formal", "playful", "minimal", "witty", "quirky"]
  {
  }

  /** Six types, in the order the handlers and the builder visit them. */
  lemma TypesInOrder()
    ensures Fulls(TYPES) == ["title", "subtitle", "description", "caption", "abbreviation", "emoji"]
  {
  }

  /** Two strings that differ at some position they both have are different. */
  lemma DifferAt(x: string, y: string, k: nat)
    requires k < |x| && k < |y| && x[k] != y[k]
    ensures x != y
  {
  }

  /** Strings whose characters at one position are pairwise different are pairwise different. */
  lemma DistinctAt(xs: seq<string>, k: nat)
    requires forall i :: 0 <= i < |xs| ==> k < |xs[i]|
    requires forall i, j :: 0 <= i < j < |xs| ==> xs[i][k] != xs[j][k]
    ensures Distinct(xs)
  {
  }

  /** The tone abbreviations are pairwise distinct, and so are the full names. */
  lemma ToneNamesDistinct()
    ensures Distinct(Abbrs(TONES)) && Distinct(Fulls(TONES))
  {
    assert Abbrs(TONES) == ["neut", "form", "play", "mini", "witt", "quirk"];
    DistinctAt(Abbrs(TONES), 0);
    DistinctAt(Fulls(TONES), 0);
  }

  /** The type abbreviations are pairwise distinct, and so are the full names. */
  lemma TypeNamesDistinct()
    ensures Distinct(Abbrs(TYPES)) && Distinct(Fulls(TYPES))
  {
    assert Abbrs(TYPES) == ["title", "subt", "desc", "capt", "abbr", "emoji"];
    DistinctAt(Abbrs(TYPES), 0);
    DistinctAt(Fulls(TYPES), 0);
  }

  /** The characters that tell the file names apart: the first letter
      separates the Language file from the others, the second Type from Tone
      files, the sixth names the type or the tone. */
  lemma TypeFileLetters(j: nat)
    requires j < |TYPES|
    ensures |TYPES[j].file| > 5 && TYPES[j].file[0] == 'T' && TYPES[j].file[1] == 'y'
    ensures TYPES[j].file[5] == "TSDCAE"[j]
  {
  }

  lemma ToneFileLetters(i: nat)
    requires i < |TONES|
    ensures |TONES[i].file| > 5 && TONES[i].file[0] == 'T' && TONES[i].file[1] == 'o'
    ensures TONES[i].file[5] == "NFPMWQ"[i]
  {
  }

  lemma TypeFilesDistinct(a: nat, b: nat)
    requires a < b < |TYPES|
    ensures TYPES[a].file != TYPES[b].file
  {
    TypeFileLetters(a);
    TypeFileLetters(b);
    DifferAt(TYPES[a].file, TYPES[b].file, 5);
  }

  lemma ToneFilesDistinct(a: nat, b: nat)
    requires a < b < |TONES|
    ensures TONES[a].file != TONES[b].file
  {
    ToneFileLetters(a);
    ToneFileLetters(b);
    DifferAt(TONES[a].file, TONES[b].file, 5);
  }

  /** The Language file is none of the layer files after it. */
  lemma LanguageFileFirst(b: nat)
    requires 0 < b < 1 + |TYPES| + |TONES|
    ensures LayerFiles()[0] != LayerFiles()[b]
  {
    var fs := LayerFiles();
    assert LANGUAGE_FILE[0] == 'L';
    if b <= |TYPES| {
      assert fs[b] == TYPES[b - 1].file;
      TypeFileLetters(b - 1);
    } else {
      assert fs[b] == TONES[b - 1 - |TYPES|].file;
      ToneFileLetters(b - 1 - |TYPES|);
    }
    DifferAt(fs[0], fs[b], 0);
  }

  /** No Type file is a Tone file. */
  lemma TypeFileNotTone(a: nat, b: nat)
    requires 0 < a <= |TYPES| < b < 1 + |TYPES| + |TONES|
    ensures LayerFiles()[a] != LayerFiles()[b]
  {
    var fs := LayerFiles();
    assert fs[a] == TYPES[a - 1].file;
    assert fs[b] == TONES[b - 1 - |TYPES|].file;
    TypeFileLetters(a - 1);
    ToneFileLetters(b - 1 - |TYPES|);
    DifferAt(fs[a], fs[b], 1);
  }

  /** Two positions of the layer order name different files. */
  lemma LayerFilesDiffer(a: nat, b: nat)
    requires a < b < 1 + |TYPES| + |TONES|
    ensures LayerFiles()[a] != LayerFiles()[b]
  {
    var fs := LayerFiles();
    if a == 0 {
      LanguageFileFirst(b);
    } else if b <= |TYPES| {
      assert fs[a] == TYPES[a - 1].file && fs[b] == TYPES[b - 1].file;
      TypeFilesDistinct(a - 1, b - 1);
    } else if a > |TYPES| {
      assert fs[a] == TONES[a - 1 - |TYPES|].file && fs[b] == TONES[b - 1 - |TYPES|].file;
      ToneFilesDistinct(a - 1 - |TYPES|, b - 1 - |TYPES|);
    } else {
      TypeFileNotTone(a, b);
    }
  }

  /** The Language file and the twelve layer files are thirteen different names. */
  lemma LayerFilesDistinct()
    ensures Distinct(LayerFiles())
  {
    var fs := LayerFiles();
    forall a, b | 0 <= a < b < |fs| ensures fs[a] != fs[b] {
      LayerFilesDiffer(a, b);
    }
  }

  /** Recording pairs with distinct keys keeps every pair, in order. */
  lemma FromEntriesFresh(entries: seq<(string, string)>)
    requires DistinctKeys(entries)
    ensures FromEntries(entries) == entries
  {
    PutAllFresh([], entries);
  }

  /** `TONE_ABBR_MAP[t.full] == t.abbr` for every tone. */
  lemma ToneAbbrMapLookup(i: nat)
    requires i < |TONES|
    ensures Lookup(TONE_ABBR_MAP, TONES[i].full) == Some(TONES[i].abbr)
  {
    var es := AbbrEntries(TONES);
    ToneNamesDistinct();
    assert DistinctKeys(es) by {
      forall a, b | 0 <= a < b < |es| ensures es[a].0 != es[b].0 {
        assert Fulls(TONES)[a] != Fulls(TONES)[b];
      }
    }
    FromEntriesFresh(es);
    LookupEntry(es, i);
  }

  /** `TYPE_ABBR_MAP[t.full] == t.abbr` for every type. */
  lemma TypeAbbrMapLookup(j: nat)
    requires j < |TYPES|
    ensures Lookup(TYPE_ABBR_MAP, TYPES[j].full) == Some(TYPES[j].abbr)
  {
    var es := AbbrEntries(TYPES);
    TypeNamesDistinct();
    assert DistinctKeys(es) by {
      forall a, b | 0 <= a < b < |es| ensures es[a].0 != es[b].0 {
        assert Fulls(TYPES)[a] != Fulls(TYPES)[b];
      }
    }
    FromEntriesFresh(es);
    LookupEntry(es, j);
  }
}

/**
 * Key-value property files (`KEY=value` lines, `#` comments, optional
 * `export ` prefixes) and the os-release lookup built on them.
 */
module Properties {
  import opened GoStrings
  import opened Platform

  const PathOsReleaseFile := "/etc/os-release"
  const OsReleasePrettyName := "PRETTY_NAME"
  const OsReleaseName := "NAME"

  /** What opening a file and scanning it line by line yields. */
  datatype FileRead =
    | OpenFailed
      /** `text` is what the scanner delivered; `scanErr` is what `scanner.Err()` reports afterwards. */
    | Scanned(text: string, scanErr: bool)

  function DropCR(line: string): string {
    if line != [] && line[|line| - 1] == '\r' then line[..|line| - 1] else line
  }

  /**
   * The lines `bufio.ScanLines` delivers: the text split at newlines, with no
   * empty final line after a trailing newline, and one carriage return
   * dropped from the end of each line.
   */
  function ScanLines(text: string): (lines: seq<string>)
    ensures forall k :: 0 <= k < |lines| ==> '\n' !in lines[k]
  {
    var parts := Split(text, '\n');
    DropCRs(if parts[|parts| - 1] == "" then parts[..|parts| - 1] else parts)
  }

  function DropCRs(ls: seq<string>): (r: seq<string>)
    ensures |r| == |ls| && forall k :: 0 <= k < |ls| ==> r[k] == DropCR(ls[k])
  {
    if ls == [] then [] else [DropCR(ls[0])] + DropCRs(ls[1..])
  }

  lemma {:induction false} JoinEmptyLast(parts: seq<string>, sep: char)
    requires |parts| >= 1
    ensures Join(parts + [""], sep) == Join(parts, sep) + [sep]
    decreases |parts|
  {
    if |parts| > 1 {
      assert (parts + [""])[1..] == parts[1..] + [""];
      JoinEmptyLast(parts[1..], sep);
    }
  }

  lemma SplitTerminatedLines(lines: seq<string>)
    requires |lines| >= 1
    requires forall k :: 0 <= k < |lines| ==> '\n' !in lines[k]
    ensures Split(Join(lines, '\n') + "\n", '\n') == lines + [""]
  {
    JoinEmptyLast(lines, '\n');
    var parts := lines + [""];
    assert forall k :: 0 <= k < |parts| ==> '\n' !in parts[k];
    SplitJoin(parts, '\n');
  }

  lemma DropCRsUnchanged(lines: seq<string>)
    requires forall k :: 0 <= k < |lines| ==> DropCR(lines[k]) == lines[k]
    ensures DropCRs(lines) == lines
  {
  }

  lemma ScanLinesOfTerminated(text: string, lines: seq<string>)
    requires Split(text, '\n') == lines + [""]
    ensures ScanLines(text) == DropCRs(lines)
  {
    assert (lines + [""])[..|lines|] == lines;
  }

  /** Writing lines out, each ended by a newline, and scanning them back gives the same lines. */
  lemma ScanLinesRoundTrip(lines: seq<string>)
    requires |lines| >= 1
    requires forall k :: 0 <= k < |lines| ==> '\n' !in lines[k]
    requires forall k :: 0 <= k < |lines| ==> DropCR(lines[k]) == lines[k]
    ensures ScanLines(Join(lines, '\n') + "\n") == lines
  {
    SplitTerminatedLines(lines);
    ScanLinesOfTerminated(Join(lines, '\n') + "\n", lines);
    DropCRsUnchanged(lines);
  }

  /**
   * `readPropertyLine`: the (key, value) pair a line passes to the callback,
   * or None when the callback is not invoked.
   */
  function ReadPropertyLine(line: string): (r: Option<(string, string)>)
    ensures r.None? <==> HasPrefix(line, "#") || '=' !in line
    ensures r.Some? ==> Trimmed(r.value.0) && IsUpper(r.value.0) && '=' !in r.value.0
    ensures r.Some? ==> Trimmed(r.value.1) && '#' !in r.value.1
  {
    if !HasPrefix(line, "#") && '=' in line then Some(SplitProperty(line)) else None
  }

  /**
   * The pair of a line holding `=`: the text before the first `=` with every
   * `export ` removed, trimmed and upper-cased, and the text after it up to the
   * first `#`, trimmed.
   */
  function SplitProperty(line: string): (kv: (string, string))
    requires '=' in line
    ensures Trimmed(kv.0) && IsUpper(kv.0) && '=' !in kv.0
    ensures Trimmed(kv.1) && '#' !in kv.1
  {
    var splitIndex := IndexOf(line, '=');
    var key := ReplaceAll(line[..splitIndex], "export ", "");
    var value := line[splitIndex + 1..];
    var value := if '#' in value then value[..IndexOf(value, '#')] else value;
    var key := ToUpper(TrimSpace(key));
    CleanedKeyShape(line[..splitIndex]);
    TrimmedValueShape(value);
    (key, TrimSpace(value))
  }

  /** The key text before the first `=`, cleaned, is trimmed, upper-case and free of `=`. */
  lemma CleanedKeyShape(s: string)
    requires '=' !in s
    ensures var key := ToUpper(TrimSpace(ReplaceAll(s, "export ", "")));
      Trimmed(key) && IsUpper(key) && '=' !in key
  {
    var removed := ReplaceAll(s, "export ", "");
    var raw := TrimSpace(removed);
    ToUpperTrimmed(raw);
    ToUpperIsUpper(raw);
    forall c | c in raw ensures c != '=' {
      TrimSpaceChars(removed, c);
    }
    var key := ToUpper(raw);
    forall k | 0 <= k < |key| ensures key[k] != '=' {
      assert key[k] == ToUpperChar(raw[k]);
      assert raw[k] in raw;
    }
  }

  /** A value cut before any `#` and trimmed is trimmed and free of `#`. */
  lemma TrimmedValueShape(value: string)
    requires '#' !in value
    ensures Trimmed(TrimSpace(value)) && '#' !in TrimSpace(value)
  {
    forall c | c in TrimSpace(value) ensures c != '#' {
      TrimSpaceChars(value, c);
    }
  }

  /** A key as the parser hands it back unchanged. */
  predicate CanonicalKey(k: string) {
    && '=' !in k && !ContainsStr(k, "export ") && Trimmed(k) && IsUpper(k) && !HasPrefix(k, "#")
  }

  /** The key cleaning of `readPropertyLine` gives a canonical key back, with or without `export `. */
  lemma CleanCanonicalKey(prefix: string, k: string)
    requires prefix == "" || prefix == "export "
    requires CanonicalKey(k)
    ensures ToUpper(TrimSpace(ReplaceAll(prefix + k, "export ", ""))) == k
  {
    ReplaceAllAbsent(k, "export ", "");
    if prefix != "" {
      ReplaceAllLeading("export ", k, "");
      assert "" + ReplaceAll(k, "export ", "") == k;
    } else {
      assert prefix + k == k;
    }
    assert ReplaceAll(prefix + k, "export ", "") == k;
    TrimSpaceOfTrimmed(k);
    ToUpperOfUpper(k);
  }

  /** Cutting the value at its first `#` removes exactly the comment. */
  lemma CutComment(w: string, comment: string)
    requires '#' !in w
    requires comment == "" || comment[0] == '#'
    ensures var value := w + comment;
      (if '#' in value then value[..IndexOf(value, '#')] else value) == w
  {
    var value := w + comment;
    if comment != "" {
      assert value[|w|] == '#';
      assert value[..|w|] == w;
      assert IndexOf(value, '#') == |w|;
    } else {
      assert value == w;
    }
  }

  /**
   * A line `KEY=value`, optionally preceded by `export ` and followed by a
   * `#` comment, yields the key and the trimmed value.
   */
  lemma ParseFormattedLine(prefix: string, k: string, w: string, comment: string)
    requires prefix == "" || prefix == "export "
    requires CanonicalKey(k) && '#' !in w
    requires comment == "" || comment[0] == '#'
    ensures ReadPropertyLine(prefix + k + "=" + w + comment) == Some((k, TrimSpace(w)))
  {
    assert '=' !in prefix + k;
    assert !HasPrefix(prefix + k, "#") by {
      if k != [] {
        assert (prefix + k)[0] == (if prefix == "" then k[0] else 'e');
      }
    }
    ParsePropertyLine(prefix + k, w, comment);
    CleanCanonicalKey(prefix, k);
  }

  /**
   * Any line with `=` that does not start with `#`: the key is the text
   * before the first `=` with every `export ` removed, trimmed and
   * upper-cased; the value is the text after it up to the first `#`, trimmed.
   */
  lemma ParsePropertyLine(keyText: string, w: string, comment: string)
    requires '=' !in keyText && !HasPrefix(keyText, "#")
    requires '#' !in w
    requires comment == "" || comment[0] == '#'
    ensures ReadPropertyLine(keyText + "=" + w + comment)
         == Some((ToUpper(TrimSpace(ReplaceAll(keyText, "export ", ""))), TrimSpace(w)))
  {
    var line := keyText + "=" + w + comment;
    PropertyLineShape(keyText, w + comment);
    assert keyText + "=" + (w + comment) == line;
    assert '=' in line by {
      assert line[|keyText|] == '=';
    }
    CutComment(w, comment);
    assert SplitProperty(line) == (ToUpper(TrimSpace(ReplaceAll(keyText, "export ", ""))), TrimSpace(w));
  }

  /** In `keyText=rest` the first `=` is the one after the key text, and the line is no comment. */
  lemma PropertyLineShape(keyText: string, rest: string)
    requires '=' !in keyText && !HasPrefix(keyText, "#")
    ensures var line := keyText + "=" + rest;
      && IndexOf(line, '=') == |keyText|
      && line[..|keyText|] == keyText
      && line[|keyText| + 1..] == rest
      && !HasPrefix(line, "#")
  {
    var line := keyText + "=" + rest;
    var i := |keyText|;
    assert line[i] == '=';
    assert line[..i] == keyText;
    assert !HasPrefix(line, "#") by {
      if keyText != [] {
        assert line[0] == keyText[0];
        assert keyText[..1] == [keyText[0]];
      }
    }
    assert line[i + 1..] == rest;
  }

  /** A key without `export ` is the key text trimmed and upper-cased, whatever its case. */
  lemma ParsePlainKey(keyText: string, w: string)
    requires '=' !in keyText && !HasPrefix(keyText, "#") && !ContainsStr(keyText, "export ")
    requires '#' !in w
    ensures ReadPropertyLine(keyText + "=" + w) == Some((ToUpper(TrimSpace(keyText)), TrimSpace(w)))
  {
    ParsePropertyLine(keyText, w, "");
    assert keyText + "=" + w + "" == keyText + "=" + w;
    ReplaceAllAbsent(keyText, "export ", "");
  }

  /** A lower-case key comes back upper-cased. */
  lemma ParseLowerCaseKey(keyText: string, w: string)
    requires keyText == "name" && w == "x"
    ensures ReadPropertyLine(keyText + "=" + w) == Some(("NAME", "x"))
  {
    NoExportIn(keyText);
    assert keyText[..1] == "n";
    assert '=' !in keyText && '#' !in w;
    ParsePlainKey(keyText, w);
    LowerKeyParts();
  }

  lemma LowerKeyParts()
    ensures ToUpper(TrimSpace("name")) == "NAME" && TrimSpace("x") == "x"
  {
    TrimSpaceOfTrimmed("name");
    TrimSpaceOfTrimmed("x");
    assert ToUpper("name") == "NAME";
  }

  /** A mixed-case key comes back upper-cased, and the blanks around `=` are dropped. */
  lemma ParseSpacedKey(keyText: string, w: string)
    requires keyText == "Foo " && w == " bar"
    ensures ReadPropertyLine(keyText + "=" + w) == Some(("FOO", "bar"))
  {
    NoExportIn(keyText);
    assert keyText[..1] == "F";
    assert '=' !in keyText && '#' !in w;
    ParsePlainKey(keyText, w);
    SpacedKeyParts();
  }

  lemma SpacedKeyParts()
    ensures ToUpper(TrimSpace("Foo ")) == "FOO" && TrimSpace(" bar") == "bar"
  {
    TrimmedFoo();
    TrimmedBar();
    assert ToUpper("Foo") == "FOO";
  }

  lemma TrimmedFoo()
    ensures TrimSpace("Foo ") == "Foo"
  {
    TrimSpaceOfPadded("", "Foo", " ");
    assert "" + "Foo" + " " == "Foo ";
  }

  lemma TrimmedBar()
    ensures TrimSpace(" bar") == "bar"
  {
    TrimSpaceOfPadded(" ", "bar", "");
    assert " " + "bar" + "" == " bar";
  }

  /** A text shorter than `export ` cannot contain it. */
  lemma NoExportIn(s: string)
    requires |s| < |"export "|
    ensures !ContainsStr(s, "export ")
  {
  }

  /** Each element of `xs` mapped to a sequence, the results concatenated in order. */
  function FlatMap<A, B>(f: A -> seq<B>, xs: seq<A>): seq<B> {
    if xs == [] then [] else f(xs[0]) + FlatMap(f, xs[1..])
  }

  lemma {:induction false} FlatMapAppend<A, B>(f: A -> seq<B>, a: seq<A>, b: seq<A>)
    ensures FlatMap(f, a + b) == FlatMap(f, a) + FlatMap(f, b)
  {
    if a == [] {
      assert a + b == b;
    } else {
      assert (a + b)[0] == a[0];
      assert (a + b)[1..] == a[1..] + b;
      FlatMapAppend(f, a[1..], b);
    }
  }

  /** The callback arguments one line yields once it is trimmed: none or one pair. */
  function PairsHead(line: string): (ps: seq<(string, string)>)
    ensures |ps| <= 1
  {
    OptionSeq(ReadPropertyLine(TrimSpace(line)))
  }

  function OptionSeq<T>(p: Option<T>): seq<T> {
    if p.Some? then [p.value] else []
  }

  /** The pairs the callback receives, in order, for the lines of a file. */
  function Pairs(lines: seq<string>): seq<(string, string)> {
    FlatMap(PairsHead, lines)
  }

  lemma PairsOfOne(line: string)
    ensures Pairs([line]) == PairsHead(line)
  {
    assert [line][1..] == [];
    assert FlatMap(PairsHead, [line]) == PairsHead([line][0]) + FlatMap(PairsHead, [line][1..]);
    assert PairsHead(line) + [] == PairsHead(line);
  }

  /** The keys occurring in a sequence of pairs. */
  function KeysOf(ps: seq<(string, string)>): set<string> {
    set k | 0 <= k < |ps| :: ps[k].0
  }

  /** The map left by storing each pair in turn, a later pair overwriting an earlier one. */
  function FoldPairs(m: map<string, string>, ps: seq<(string, string)>): map<string, string>
    decreases |ps|
  {
    if ps == [] then m else FoldPairs(m[ps[0].0 := ps[0].1], ps[1..])
  }

  lemma {:induction false} FoldAppend(m: map<string, string>, a: seq<(string, string)>, b: seq<(string, string)>)
    ensures FoldPairs(m, a + b) == FoldPairs(FoldPairs(m, a), b)
    decreases |a|
  {
    if a != [] {
      assert (a + b)[0] == a[0];
      assert (a + b)[1..] == a[1..] + b;
      FoldAppend(m[a[0].0 := a[0].1], a[1..], b);
    } else {
      assert a + b == b;
    }
  }

  /** The stored keys are the initial ones and those of the pairs. */
  lemma {:induction false} FoldKeys(m: map<string, string>, ps: seq<(string, string)>)
    ensures FoldPairs(m, ps).Keys == m.Keys + KeysOf(ps)
    decreases |ps|
  {
    if ps != [] {
      FoldKeys(m[ps[0].0 := ps[0].1], ps[1..]);
      assert KeysOf(ps) == {ps[0].0} + KeysOf(ps[1..]) by {
        forall k | k in KeysOf(ps) ensures k in {ps[0].0} + KeysOf(ps[1..]) {
          var j :| 0 <= j < |ps| && ps[j].0 == k;
          if j > 0 { assert ps[1..][j - 1].0 == k; }
        }
        forall k | k in KeysOf(ps[1..]) ensures k in KeysOf(ps) {
          var j :| 0 <= j < |ps[1..]| && ps[1..][j].0 == k;
          assert ps[j + 1].0 == k;
        }
      }
    }
  }

  /** A key no pair mentions keeps its initial value. */
  lemma {:induction false} FoldUntouched(m: map<string, string>, ps: seq<(string, string)>, k: string)
    requires k in m && k !in KeysOf(ps)
    ensures k in FoldPairs(m, ps) && FoldPairs(m, ps)[k] == m[k]
    decreases |ps|
  {
    if ps != [] {
      assert ps[0].0 != k;
      assert k !in KeysOf(ps[1..]) by {
        forall j | 0 <= j < |ps[1..]| ensures ps[1..][j].0 != k {
          assert ps[1..][j] == ps[j + 1];
        }
      }
      FoldUntouched(m[ps[0].0 := ps[0].1], ps[1..], k);
    }
  }

  /** The last pair stored under a key decides its value. */
  lemma LastPairWins(m: map<string, string>, pre: seq<(string, string)>, k: string, v: string,
                     post: seq<(string, string)>)
    requires k !in KeysOf(post)
    ensures k in FoldPairs(m, pre + [(k, v)] + post)
    ensures FoldPairs(m, pre + [(k, v)] + post)[k] == v
  {
    FoldAppend(m, pre + [(k, v)], post);
    FoldAppend(m, pre, [(k, v)]);
    var mid := FoldPairs(FoldPairs(m, pre), [(k, v)]);
    assert mid == FoldPairs(m, pre)[k := v];
    FoldUntouched(mid, post, k);
  }

  /** The map `readPropertiesToMap` returns for the lines of a readable file. */
  function PropertiesMap(lines: seq<string>): map<string, string> {
    FoldPairs(map[], Pairs(lines))
  }

  /** The keys of the property map are exactly the keys of the parsed lines. */
  lemma PropertiesMapKeys(lines: seq<string>)
    ensures PropertiesMap(lines).Keys == KeysOf(Pairs(lines))
  {
    FoldKeys(map[], Pairs(lines));
  }

  /** A line defining a key that no later line redefines gives that key its value. */
  lemma PropertyLastLineWins(pre: seq<string>, line: string, post: seq<string>, k: string, v: string)
    requires ReadPropertyLine(TrimSpace(line)) == Some((k, v))
    requires k !in KeysOf(Pairs(post))
    ensures k in PropertiesMap(pre + [line] + post) && PropertiesMap(pre + [line] + post)[k] == v
  {
    FlatMapAppend(PairsHead, pre + [line], post);
    FlatMapAppend(PairsHead, pre, [line]);
    PairsOfOne(line);
    LastPairWins(map[], Pairs(pre), k, v, Pairs(post));
  }

  /** What the `readPropertiesToMap` callback does with the pair of one line. */
  function StoreProperty(m: map<string, string>, p: Option<(string, string)>): map<string, string> {
    if p.Some? then m[p.value.0 := p.value.1] else m
  }

  /** The property map of the first i + 1 lines is that of the first i lines with line i stored. */
  lemma PropertiesMapStep(lines: seq<string>, i: nat)
    requires i < |lines|
    ensures PropertiesMap(lines[..i + 1]) == StoreProperty(PropertiesMap(lines[..i]), ReadPropertyLine(TrimSpace(lines[i])))
  {
    assert lines[..i + 1] == lines[..i] + [lines[i]];
    FlatMapAppend(PairsHead, lines[..i], [lines[i]]);
    PairsOfOne(lines[i]);
    FoldAppend(map[], Pairs(lines[..i]), PairsHead(lines[i]));
    var p := ReadPropertyLine(TrimSpace(lines[i]));
    if p.Some? {
      assert [p.value][1..] == [];
    }
  }

  /** The map once the `readPropertiesToMap` callback has run on each line in turn. */
  function PropertiesOf(lines: seq<string>): map<string, string>
    decreases |lines|
  {
    if lines == [] then map[]
    else StoreProperty(PropertiesOf(lines[..|lines| - 1]), ReadPropertyLine(TrimSpace(lines[|lines| - 1])))
  }

  lemma PropertiesOfStep(lines: seq<string>, i: nat)
    requires i < |lines|
    ensures PropertiesOf(lines[..i + 1]) == StoreProperty(PropertiesOf(lines[..i]), ReadPropertyLine(TrimSpace(lines[i])))
  {
    assert lines[..i + 1][..i] == lines[..i];
  }

  /** The `readPropertiesToMap` callback: the pair overwrites any earlier value of its key. */
  method StorePropertyCallback(m: map<string, string>, key: string, value: string) returns (after: map<string, string>)
    ensures after == StoreProperty(m, Some((key, value)))
    ensures key in after && after[key] == value
    ensures forall k :: k in m && k != key ==> k in after && after[k] == m[k]
  {
    after := m[key := value];
  }

  /** Running the callback line by line stores the same map as folding over all parsed pairs. */
  lemma {:induction false} PropertiesOfIsFold(lines: seq<string>)
    ensures PropertiesOf(lines) == PropertiesMap(lines)
    decreases |lines|
  {
    if lines != [] {
      var n := |lines| - 1;
      PropertiesOfIsFold(lines[..n]);
      PropertiesMapStep(lines, n);
      assert lines[..n + 1] == lines;
    }
  }

  /**
   * `readPropertiesToMap`: every parsed pair is stored in a map, a later line
   * overwriting an earlier one; a file that cannot be opened or read yields no map.
   */
  method ReadPropertiesToMap(file: FileRead) returns (result: Option<map<string, string>>)
    ensures file.OpenFailed? ==> result.None?
    ensures file.Scanned? ==>
      result == if file.scanErr then None else Some(PropertiesMap(ScanLines(file.text)))
  {
    if file.OpenFailed? {
      return None;
    }
    var lines := ScanLines(file.text);
    var m: map<string, string> := map[];
    var i := 0;
    assert lines[..0] == [];
    while i < |lines|
      invariant 0 <= i <= |lines|
      invariant m == PropertiesOf(lines[..i])
    {
      var p := ReadPropertyLine(TrimSpace(lines[i]));
      PropertiesOfStep(lines, i);
      if p.Some? {
        m := StorePropertyCallback(m, p.value.0, p.value.1);
      }
      i := i + 1;
    }
    assert lines[..i] == lines;
    PropertiesOfIsFold(lines);
    if file.scanErr {
      return None;
    }
    return Some(m);
  }

  /** What `getOsReleaseValue` stores for one pair: values longer than one character, first and last character dropped. */
  function StrippedHead(p: (string, string)): (qs: seq<(string, string)>)
    ensures |qs| <= 1
  {
    var v := p.1;
    if |v| > 1 then [(p.0, v[1..|v| - 1])] else []
  }

  function Stripped(ps: seq<(string, string)>): seq<(string, string)> {
    FlatMap(StrippedHead, ps)
  }

  /** What the `getOsReleaseValue` callback does with the pair of one line. */
  function StoreOsRelease(values: map<string, string>, p: Option<(string, string)>): map<string, string> {
    if p.Some? && |p.value.1| > 1 then values[p.value.0 := p.value.1[1..|p.value.1| - 1]] else values
  }

  lemma StoreStripped(values: map<string, string>, p: Option<(string, string)>)
    ensures FoldPairs(values, Stripped(OptionSeq(p))) == StoreOsRelease(values, p)
  {
    if p.Some? {
      assert [p.value][1..] == [];
      var u := StrippedHead(p.value);
      assert Stripped([p.value]) == u + Stripped([p.value][1..]);
      if |p.value.1| > 1 {
        assert u[1..] == [];
      }
    }
  }

  /** The os-release values gathered from the lines of the file. */
  function OsReleaseMap(lines: seq<string>): map<string, string> {
    FoldPairs(map[], Stripped(Pairs(lines)))
  }

  /** The os-release values of the first i + 1 lines are those of the first i lines with line i stored. */
  lemma OsReleaseMapStep(lines: seq<string>, i: nat)
    requires i < |lines|
    ensures OsReleaseMap(lines[..i + 1]) == StoreOsRelease(OsReleaseMap(lines[..i]), ReadPropertyLine(TrimSpace(lines[i])))
  {
    assert lines[..i + 1] == lines[..i] + [lines[i]];
    FlatMapAppend(PairsHead, lines[..i], [lines[i]]);
    PairsOfOne(lines[i]);
    FlatMapAppend(StrippedHead, Pairs(lines[..i]), PairsHead(lines[i]));
    FoldAppend(map[], Stripped(Pairs(lines[..i])), Stripped(PairsHead(lines[i])));
    StoreStripped(OsReleaseMap(lines[..i]), ReadPropertyLine(TrimSpace(lines[i])));
  }

  /** The values map once the os-release callback has run on each line in turn. */
  function OsReleaseValuesOf(lines: seq<string>): map<string, string>
    decreases |lines|
  {
    if lines == [] then map[]
    else StoreOsRelease(OsReleaseValuesOf(lines[..|lines| - 1]), ReadPropertyLine(TrimSpace(lines[|lines| - 1])))
  }

  lemma OsReleaseValuesOfStep(lines: seq<string>, i: nat)
    requires i < |lines|
    ensures OsReleaseValuesOf(lines[..i + 1]) == StoreOsRelease(OsReleaseValuesOf(lines[..i]), ReadPropertyLine(TrimSpace(lines[i])))
  {
    assert lines[..i + 1][..i] == lines[..i];
  }

  /**
   * The `getOsReleaseValue` callback: a value of more than one character is
   * stored without its first and last character, whether or not they are quotes; a shorter one is dropped.
   */
  method OsReleaseCallback(values: map<string, string>, key: string, value: string) returns (after: map<string, string>)
    ensures after == StoreOsRelease(values, Some((key, value)))
    ensures |value| > 1 ==> key in after && after[key] == value[1..|value| - 1] && |after[key]| == |value| - 2
    ensures |value| <= 1 ==> after == values
  {
    after := values;
    if |value| > 1 {
      after := after[key := value[1..|value| - 1]];
    }
  }

  /** Running the callback line by line stores the same values as folding over all stripped pairs. */
  lemma {:induction false} OsReleaseValuesOfIsFold(lines: seq<string>)
    ensures OsReleaseValuesOf(lines) == OsReleaseMap(lines)
    decreases |lines|
  {
    if lines != [] {
      var n := |lines| - 1;
      OsReleaseValuesOfIsFold(lines[..n]);
      OsReleaseMapStep(lines, n);
      assert lines[..n + 1] == lines;
    }
  }

  /** The values map of `getOsReleaseValue`; a file that cannot be opened leaves it empty. */
  function OsReleaseValues(file: FileRead): map<string, string> {
    if file.OpenFailed? then map[] else OsReleaseMap(ScanLines(file.text))
  }

  /**
   * The lookup at the end of `getOsReleaseValue`: a named key, or, for the
   * empty name, PRETTY_NAME when it is non-empty and NAME otherwise.
   */
  function SelectOsRelease(values: map<string, string>, name: string): (r: string)
    ensures name != "" ==> r == Lookup(values, name)
    ensures name == "" && Lookup(values, OsReleasePrettyName) != "" ==> r == values[OsReleasePrettyName]
    ensures name == "" && Lookup(values, OsReleasePrettyName) == "" ==> r == Lookup(values, OsReleaseName)
  {
    if name == "" then
      if Lookup(values, OsReleasePrettyName) != "" then Lookup(values, OsReleasePrettyName)
      else Lookup(values, OsReleaseName)
    else Lookup(values, name)
  }

  /** A value longer than one character on the last line defining a key is returned without its first and last character. */
  lemma OsReleaseLastLineWins(pre: seq<string>, line: string, post: seq<string>, k: string, w: string)
    requires ReadPropertyLine(TrimSpace(line)) == Some((k, w)) && |w| > 1
    requires k !in KeysOf(Stripped(Pairs(post)))
    ensures k in OsReleaseMap(pre + [line] + post)
    ensures OsReleaseMap(pre + [line] + post)[k] == w[1..|w| - 1]
  {
    FlatMapAppend(PairsHead, pre + [line], post);
    FlatMapAppend(PairsHead, pre, [line]);
    PairsOfOne(line);
    FlatMapAppend(StrippedHead, Pairs(pre) + [(k, w)], Pairs(post));
    FlatMapAppend(StrippedHead, Pairs(pre), [(k, w)]);
    assert Stripped([(k, w)]) == [(k, w[1..|w| - 1])];
    LastPairWins(map[], Stripped(Pairs(pre)), k, w[1..|w| - 1], Stripped(Pairs(post)));
  }

  /** A line whose value has at most one character leaves the os-release values as they were. */
  lemma OsReleaseShortValueIgnored(pre: seq<string>, line: string, post: seq<string>, k: string, w: string)
    requires ReadPropertyLine(TrimSpace(line)) == Some((k, w)) && |w| <= 1
    ensures OsReleaseMap(pre + [line] + post) == OsReleaseMap(pre + post)
  {
    FlatMapAppend(PairsHead, pre + [line], post);
    FlatMapAppend(PairsHead, pre, [line]);
    FlatMapAppend(PairsHead, pre, post);
    PairsOfOne(line);
    FlatMapAppend(StrippedHead, Pairs(pre) + [(k, w)], Pairs(post));
    FlatMapAppend(StrippedHead, Pairs(pre), [(k, w)]);
    FlatMapAppend(StrippedHead, Pairs(pre), Pairs(post));
    assert Stripped([(k, w)]) == [];
    assert Stripped(Pairs(pre)) + [] == Stripped(Pairs(pre));
  }

  /**
   * `readProperties` run with the `getOsReleaseValue` callback: every scanned
   * line is handed to the callback in turn; a file that cannot be opened
   * leaves the map empty and a read error is ignored.
   */
  method ReadOsReleaseValues(file: FileRead) returns (values: map<string, string>)
    ensures values == OsReleaseValues(file)
  {
    values := map[];
    if file.Scanned? {
      var lines := ScanLines(file.text);
      var i := 0;
      assert lines[..0] == [];
      while i < |lines|
        invariant 0 <= i <= |lines|
        invariant values == OsReleaseValuesOf(lines[..i])
      {
        var p := ReadPropertyLine(TrimSpace(lines[i]));
        OsReleaseValuesOfStep(lines, i);
        if p.Some? {
          values := OsReleaseCallback(values, p.value.0, p.value.1);
        }
        i := i + 1;
      }
      assert lines[..i] == lines;
      OsReleaseValuesOfIsFold(lines);
    }
  }

  /**
   * `getOsReleaseValue`: reads the os-release file into a map of values
   * stripped of their first and last character, ignoring read errors, and
   * selects the requested value.
   */
  method GetOsReleaseValue(file: FileRead, name: string) returns (r: string)
    ensures r == SelectOsRelease(OsReleaseValues(file), name)
  {
    var values := ReadOsReleaseValues(file);
    if name == "" {
      if Lookup(values, OsReleasePrettyName) != "" {
        return Lookup(values, OsReleasePrettyName);
      }
      return Lookup(values, OsReleaseName);
    }
    return Lookup(values, name);
  }
}

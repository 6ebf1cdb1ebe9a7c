/** Splitting a requirements file into torch packages and the rest
    (comfyctl/cli.py, with the profile lookup of comfyctl/catalog.py). */
module Requirements {
  import opened Wrappers
  import opened Text
  import opened Catalog

  // -------------------------------------------------------------- package names

  predicate IsSeparator(c: char) {
    c == '-' || c == '_' || c == '.'
  }

  function LowerChar(c: char): char {
    if 'A' <= c <= 'Z' then 'a' + (c - 'A') else c
  }

  function Lower(s: string): (r: string)
    ensures |r| == |s| && forall i | 0 <= i < |s| :: r[i] == LowerChar(s[i])
  {
    seq(|s|, i requires 0 <= i < |s| => LowerChar(s[i]))
  }

  /** Every run of separators becomes one dash. */
  function Collapse(s: string): string {
    if s == "" then ""
    else if !IsSeparator(s[0]) then [s[0]] + Collapse(s[1..])
    else if |s| > 1 && IsSeparator(s[1]) then Collapse(s[1..])
    else "-" + Collapse(s[1..])
  }

  /** `normalized_package_name`. */
  function Normalized(name: string): string {
    Lower(Collapse(name))
  }

  /** No upper case, no separator but the dash, no two dashes in a row. */
  predicate IsNormal(s: string) {
    && (forall i | 0 <= i < |s| :: LowerChar(s[i]) == s[i] && s[i] != '_' && s[i] != '.')
    && (forall i | 0 < i < |s| :: s[i - 1] == '-' ==> s[i] != '-')
  }

  lemma {:induction false} CollapseIsSparse(s: string)
    ensures forall i | 0 <= i < |Collapse(s)| :: IsSeparator(Collapse(s)[i]) ==> Collapse(s)[i] == '-'
    ensures forall i | 0 < i < |Collapse(s)| :: Collapse(s)[i - 1] == '-' ==> Collapse(s)[i] != '-'
    ensures s != "" ==> Collapse(s) != "" && (IsSeparator(Collapse(s)[0]) <==> IsSeparator(s[0]))
  {
    if s != "" { CollapseIsSparse(s[1..]); }
  }

  lemma {:induction false} CollapseKeepsNormal(s: string)
    requires IsNormal(s)
    ensures Collapse(s) == s
  {
    if s != "" {
      assert forall i | 0 <= i < |s[1..]| :: s[1..][i] == s[i + 1];
      CollapseKeepsNormal(s[1..]);
      assert s == [s[0]] + s[1..];
    }
  }

  lemma NormalizedIsNormal(name: string)
    ensures IsNormal(Normalized(name))
  {
    CollapseIsSparse(name);
  }

  /** Exactly the names in normal form stay as they are, so normalizing twice is normalizing once. */
  lemma NormalizedFixesNormal(name: string)
    ensures Normalized(name) == name <==> IsNormal(name)
    ensures Normalized(Normalized(name)) == Normalized(name)
  {
    NormalizedIsNormal(name);
    NormalIsFixed(Normalized(name));
    if IsNormal(name) { NormalIsFixed(name); }
  }

  lemma NormalIsFixed(name: string)
    requires IsNormal(name)
    ensures Normalized(name) == name
  {
    CollapseKeepsNormal(name);
    assert Lower(name) == name;
  }

  /** The number of leading separators. */
  function SeparatorRun(s: string): (n: nat)
    ensures n <= |s| && (n > 0 <==> s != "" && IsSeparator(s[0]))
  {
    if s == "" || !IsSeparator(s[0]) then 0 else 1 + SeparatorRun(s[1..])
  }

  /** The text between the runs of separators, from first to last. */
  function Pieces(s: string): (r: seq<string>)
    ensures |r| > 0
    decreases |s|
  {
    if s == "" then [""]
    else if IsSeparator(s[0]) then [""] + Pieces(s[SeparatorRun(s)..])
    else
      var rest := Pieces(s[1..]);
      [[s[0]] + rest[0]] + rest[1..]
  }

  lemma {:induction false} CollapseOfRun(s: string)
    requires s != "" && IsSeparator(s[0])
    ensures Collapse(s) == "-" + Collapse(s[SeparatorRun(s)..])
  {
    if |s| > 1 && IsSeparator(s[1]) {
      CollapseOfRun(s[1..]);
      assert s[1..][SeparatorRun(s[1..])..] == s[SeparatorRun(s)..];
    } else {
      assert SeparatorRun(s) == 1;
    }
  }

  lemma JoinFirst(c: char, parts: seq<string>)
    requires parts != []
    ensures Join([[c] + parts[0]] + parts[1..], '-') == [c] + Join(parts, '-')
  {}

  lemma JoinEmpty(parts: seq<string>)
    requires parts != []
    ensures Join([""] + parts, '-') == "-" + Join(parts, '-')
  {}

  /** Collapsing keeps every piece of the name, in order, and puts one dash between neighbours. */
  lemma {:induction false} CollapseJoinsPieces(s: string)
    ensures Collapse(s) == Join(Pieces(s), '-')
    decreases |s|
  {
    if s != "" {
      if IsSeparator(s[0]) {
        var rest := s[SeparatorRun(s)..];
        CollapseOfRun(s);
        CollapseJoinsPieces(rest);
        JoinEmpty(Pieces(rest));
      } else {
        CollapseJoinsPieces(s[1..]);
        JoinFirst(s[0], Pieces(s[1..]));
      }
    }
  }

  // ---------------------------------------------------------- requirement lines

  predicate StartsWith(s: string, prefix: string) {
    prefix <= s
  }

  predicate IsNameChar(c: char) {
    'A' <= c <= 'Z' || 'a' <= c <= 'z' || IsDigit(c) || IsSeparator(c)
  }

  /** The leading name characters. */
  function NamePrefix(s: string): string {
    if s == "" || !IsNameChar(s[0]) then "" else [s[0]] + NamePrefix(s[1..])
  }

  /** The line without its comment and outer white space. */
  function Cleaned(line: string): string {
    Strip(Before(line, '#'))
  }

  /** The package that a cleaned line names. */
  function NameIn(stripped: string): Option<string> {
    if stripped == "" || StartsWith(stripped, "-") || StartsWith(stripped, "http://")
      || StartsWith(stripped, "https://") || StartsWith(stripped, ".") then None
    else if NamePrefix(stripped) == "" then None
    else Some(Normalized(NamePrefix(stripped)))
  }

  /** `requirement_package_name`. */
  function PackageName(line: string): Option<string> {
    NameIn(Cleaned(line))
  }

  /** `is_torch_requirement`. */
  predicate IsTorch(line: string) {
    PackageName(line).Some? && PackageName(line).value in TORCH_NAMES
  }

  lemma BeforeHasNone(line: string)
    ensures '#' !in Before(line, '#') && '#' !in Cleaned(line)
  {}

  /** A line is what is left of it when cleaned, with white space around and a comment after that. */
  lemma CleanedMeans(line: string) returns (pre: string, post: string, comment: string)
    ensures line == pre + Cleaned(line) + post + comment
    ensures AllSpace(pre) && AllSpace(post) && Tight(Cleaned(line)) && '#' !in Cleaned(line)
    ensures comment == "" || comment[0] == '#'
  {
    BeforeHasNone(line);
    pre, post := StripTakes(Before(line, '#'));
    comment := line[|Before(line, '#')|..];
    assert line == Before(line, '#') + comment;
  }

  lemma CleanedIsClean(line: string)
    ensures Cleaned(Cleaned(line)) == Cleaned(line)
  {
    var s := Cleaned(line);
    BeforeHasNone(line);
    assert s[..|s|] == s;
    FindUnique(s, '#', |s|);
    StripTight(s);
  }

  /** Cleaning a line twice is cleaning it once, so a cleaned line names the same package. */
  lemma CleanedTwice(line: string)
    ensures Cleaned(Cleaned(line)) == Cleaned(line)
    ensures IsTorch(Cleaned(line)) == IsTorch(line)
    ensures IsTorch(line) ==> Cleaned(line) != ""
  {
    CleanedIsClean(line);
  }

  // ------------------------------------- a torch requirement, told by the text of its line

  /** After white space the line starts with one of the three names, in any case, and no name goes on
      after it. */
  ghost predicate TorchText(line: string) {
    exists pre: string, name: string, rest: string :: NameFirst(line, pre, name, rest) && SpellsTorch(name)
  }

  ghost predicate NameFirst(line: string, pre: string, name: string, rest: string) {
    && line == pre + (name + rest) && AllSpace(pre)
    && name != "" && AllNameChars(name) && NameEnds(rest)
  }

  ghost predicate SpellsTorch(name: string) {
    Spells(name, "torch") || Spells(name, "torchvision") || Spells(name, "torchaudio")
  }

  /** Letter by letter the same, or the upper case of it. */
  ghost predicate Spells(name: string, word: string) {
    |name| == |word| && forall i | 0 <= i < |name| :: name[i] == word[i] || name[i] as int + 32 == word[i] as int
  }

  predicate AllNameChars(s: string) {
    forall i | 0 <= i < |s| :: IsNameChar(s[i])
  }

  /** No name goes on in the text. */
  predicate NameEnds(s: string) {
    s == "" || !IsNameChar(s[0])
  }

  predicate NoSeparators(s: string) {
    forall i | 0 <= i < |s| :: !IsSeparator(s[i])
  }

  lemma {:induction false} CollapsePlain(s: string)
    ensures NoSeparators(s) ==> Collapse(s) == s
    ensures NoSeparators(s) <==> NoSeparators(Collapse(s))
  {
    if s != "" {
      var rest, c := s[1..], Collapse(s);
      CollapsePlain(rest);
      HeadTail(s);
      assert NoSeparators(s) <==> !IsSeparator(s[0]) && NoSeparators(rest);
      if !IsSeparator(s[0]) {
        assert c == [s[0]] + Collapse(rest);
        assert forall i | 0 <= i < |Collapse(rest)| :: c[i + 1] == Collapse(rest)[i];
      } else if |s| > 1 && IsSeparator(s[1]) {
        assert !NoSeparators(rest) by { assert IsSeparator(rest[0]); }
      } else {
        assert IsSeparator(c[0]);
      }
    }
  }

  lemma LowerPlain(s: string)
    ensures NoSeparators(s) <==> NoSeparators(Lower(s))
  {
    assert forall i | 0 <= i < |s| :: IsSeparator(s[i]) <==> IsSeparator(Lower(s)[i]);
  }

  lemma SpellsInLower(name: string, word: string)
    requires forall i | 0 <= i < |word| :: 'a' <= word[i] <= 'z'
    ensures Spells(name, word) <==> Lower(name) == word
  {
    if Spells(name, word) {
      assert forall i | 0 <= i < |name| :: LowerChar(name[i]) == word[i];
    }
    if Lower(name) == word {
      assert forall i | 0 <= i < |name| :: LowerChar(name[i]) == word[i];
    }
  }

  /** The three names hold no separator, so nothing is collapsed in what spells one. */
  lemma SpellsMeans(name: string)
    ensures SpellsTorch(name) <==> Normalized(name) in TORCH_NAMES
    ensures SpellsTorch(name) ==> name != ""
  {
    assert forall t <- TORCH_NAMES :: NoSeparators(t);
    SpellsInLower(name, "torch");
    SpellsInLower(name, "torchvision");
    SpellsInLower(name, "torchaudio");
    CollapsePlain(name);
    LowerPlain(name);
    LowerPlain(Collapse(name));
  }

  lemma {:induction false} NamePrefixOf(name: string, rest: string)
    requires AllNameChars(name) && NameEnds(rest)
    ensures NamePrefix(name + rest) == name
    decreases |name|
  {
    if name == "" {
      assert name + rest == rest;
    } else {
      assert (name + rest)[0] == name[0] && (name + rest)[1..] == name[1..] + rest;
      NamePrefixOf(name[1..], rest);
      HeadTail(name);
    }
  }

  lemma {:induction false} NamePrefixTakes(s: string) returns (rest: string)
    ensures s == NamePrefix(s) + rest && AllNameChars(NamePrefix(s)) && NameEnds(rest)
  {
    if s == "" || !IsNameChar(s[0]) {
      rest := s;
    } else {
      rest := NamePrefixTakes(s[1..]);
      HeadTail(s);
      Regroup([s[0]], NamePrefix(s[1..]), rest);
    }
  }

  lemma NameInMeans(stripped: string)
    ensures NameIn(stripped).Some? && NameIn(stripped).value in TORCH_NAMES <==> SpellsTorch(NamePrefix(stripped))
  {
    var name := NamePrefix(stripped);
    SpellsMeans(name);
    if SpellsTorch(name) {
      assert name[0] == stripped[0] && name[0] in "tT";
    }
  }

  lemma BeforePrefix(u: string, v: string, c: char)
    requires forall i | 0 <= i < |u| :: u[i] != c
    ensures Before(u + v, c) == u + Before(v, c)
  {
    var n := |u| + Find(v, c);
    assert (u + v)[..n] == u + v[..Find(v, c)];
    FindUnique(u + v, c, n);
  }

  lemma {:induction false} StripRightKeeps(u: string, v: string) returns (w: string)
    requires u != "" && !IsSpace(u[|u| - 1])
    ensures StripRight(u + v) == u + w && (w == "" || (v != "" && w[0] == v[0]))
    decreases |v|
  {
    if v == "" || !IsSpace(v[|v| - 1]) {
      w := v;
      assert (u + v)[|u + v| - 1] == if v == "" then u[|u| - 1] else v[|v| - 1];
    } else {
      assert (u + v)[..|u + v| - 1] == u + v[..|v| - 1] && (u + v)[|u + v| - 1] == v[|v| - 1];
      w := StripRightKeeps(u, v[..|v| - 1]);
    }
  }

  lemma TextIsTorch(line: string, pre: string, name: string, rest: string)
    requires NameFirst(line, pre, name, rest) && SpellsTorch(name)
    ensures IsTorch(line)
  {
    var before := Before(rest, '#');
    BeforePrefix(name, rest, '#');
    BeforePrefix(pre, name + rest, '#');
    assert before != "" ==> before[0] == rest[0];
    assert (name + before)[0] == name[0];
    StripLeftPadded(pre, name + before);
    var w := StripRightKeeps(name, before);
    NamePrefixOf(name, w);
    NameInMeans(name + w);
  }

  /** Behind a name that has ended, white space and a comment follow. */
  lemma NameStaysFirst(pre: string, name: string, rest: string, post: string, comment: string)
    requires AllSpace(pre) && name != "" && AllNameChars(name)
    requires NameEnds(rest) && NameEnds(post) && NameEnds(comment)
    ensures NameFirst(pre + (name + rest) + post + comment, pre, name, rest + (post + comment))
  {
    var more := rest + (post + comment);
    assert pre + (name + rest) + post + comment == pre + (name + more);
    assert more == "" || more[0] == if rest != "" then rest[0] else if post != "" then post[0] else comment[0];
  }

  lemma TextAround(pre: string, s: string, post: string, comment: string)
    requires AllSpace(pre) && AllSpace(post) && (comment == "" || comment[0] == '#')
    requires SpellsTorch(NamePrefix(s))
    ensures TorchText(pre + s + post + comment)
  {
    var name := NamePrefix(s);
    var rest := NamePrefixTakes(s);
    NameStaysFirst(pre, name, rest, post, comment);
  }

  lemma TorchHasText(line: string)
    requires IsTorch(line)
    ensures TorchText(line)
  {
    NameInMeans(Cleaned(line));
    var pre, post, comment := CleanedMeans(line);
    TextAround(pre, Cleaned(line), post, comment);
  }

  /** Of any line: it is a torch requirement exactly when its text says so. */
  lemma TorchTextMeans(line: string)
    ensures IsTorch(line) <==> TorchText(line)
  {
    if IsTorch(line) { TorchHasText(line); }
    if pre: string, name: string, rest: string :| NameFirst(line, pre, name, rest) && SpellsTorch(name) {
      TextIsTorch(line, pre, name, rest);
    }
  }

  // ------------------------------------------------------------------- the split

  function Filter<T>(keep: T -> bool, s: seq<T>): (r: seq<T>)
    ensures forall x <- r :: x in s && keep(x)
  {
    if s == [] then [] else if keep(s[0]) then [s[0]] + Filter(keep, s[1..]) else Filter(keep, s[1..])
  }

  predicate IsOther(line: string) {
    !IsTorch(line)
  }

  /** The lines that `write_requirements_without_torch` writes. */
  function Kept(lines: seq<string>): seq<string> {
    Filter(IsOther, lines)
  }

  function Removed(lines: seq<string>): seq<string> {
    Filter(IsTorch, lines)
  }

  function Marks<T>(chosen: T -> bool, s: seq<T>): seq<bool> {
    seq(|s|, i requires 0 <= i < |s| => chosen(s[i]))
  }

  /** Puts two lists together again: a mark takes the next of `chosen`, no mark the next of `others`. */
  function Woven<T>(marks: seq<bool>, chosen: seq<T>, others: seq<T>): seq<T>
    decreases |marks|
  {
    if marks == [] then []
    else if marks[0] then
      (if chosen == [] then [] else [chosen[0]] + Woven(marks[1..], chosen[1..], others))
    else
      (if others == [] then [] else [others[0]] + Woven(marks[1..], chosen, others[1..]))
  }

  lemma {:induction false} FiltersWeave<T>(chosen: T -> bool, other: T -> bool, s: seq<T>)
    requires forall x <- s :: other(x) == !chosen(x)
    ensures Woven(Marks(chosen, s), Filter(chosen, s), Filter(other, s)) == s
    ensures |Filter(chosen, s)| + |Filter(other, s)| == |s|
  {
    if s != [] {
      assert Marks(chosen, s)[1..] == Marks(chosen, s[1..]);
      FiltersWeave(chosen, other, s[1..]);
      assert s[0] in s && [s[0]] + s[1..] == s;
    }
  }

  /** Nothing is lost, doubled, reordered or sent to the wrong side: the removed lines are the torch
      requirements, the kept lines are not, and the two weave back into the file. */
  lemma SplitConserves(lines: seq<string>)
    ensures Woven(Marks(IsTorch, lines), Removed(lines), Kept(lines)) == lines
    ensures |Removed(lines)| + |Kept(lines)| == |lines|
    ensures forall line <- Removed(lines) :: TorchText(line)
    ensures forall line <- Kept(lines) :: !TorchText(line)
  {
    FiltersWeave(IsTorch, IsOther, lines);
    forall line ensures IsTorch(line) <==> TorchText(line) { TorchTextMeans(line); }
  }

  // ---------------------------------------------------------- the written file

  /** The text written for the kept lines. */
  function FileText(lines: seq<string>): string {
    Join(lines, '\n') + "\n"
  }

  /** Reading a text as lines, which end with a line feed. */
  function LinesOf(text: string): seq<string> {
    var parts := Split(text, '\n');
    if parts[|parts| - 1] == "" then parts[..|parts| - 1] else parts
  }

  lemma {:induction false} JoinAppend(parts: seq<string>, c: char)
    requires parts != []
    ensures Join(parts + [""], c) == Join(parts, c) + [c]
  {
    if |parts| == 1 {
      assert (parts + [""])[1..] == [""];
    } else {
      assert (parts + [""])[1..] == parts[1..] + [""];
      JoinAppend(parts[1..], c);
    }
  }

  /** The written file reads back as the kept lines; when none is kept it is one empty line. */
  lemma WrittenReadsBack(lines: seq<string>)
    requires forall i | 0 <= i < |lines| :: '\n' !in lines[i]
    ensures LinesOf(FileText(lines)) == if lines == [] then [""] else lines
  {
    if lines == [] {
      assert FileText(lines) == Join(["", ""], '\n');
      SplitJoin(["", ""], '\n');
    } else {
      JoinAppend(lines, '\n');
      SplitJoin(lines + [""], '\n');
    }
  }

  // --------------------------------------------------------- torch requirements

  function Map<T>(f: T -> T, s: seq<T>): seq<T> {
    if s == [] then [] else [f(s[0])] + Map(f, s[1..])
  }

  predicate IsTorchLine(line: string) {
    line != "" && IsTorch(line)
  }

  /** `torch_requirements` without a profile. */
  function FromFile(lines: seq<string>): seq<string> {
    var requirements := Filter(IsTorchLine, Map(Cleaned, lines));
    if requirements != [] then requirements else ["torch", "torchvision", "torchaudio"]
  }

  lemma {:induction false} FilterAfterMap<T>(f: T -> T, after: T -> bool, before: T -> bool, s: seq<T>)
    requires forall x <- s :: after(f(x)) == before(x)
    ensures Filter(after, Map(f, s)) == Map(f, Filter(before, s))
  {
    if s != [] {
      assert s[0] in s && Map(f, s)[1..] == Map(f, s[1..]);
      FilterAfterMap(f, after, before, s[1..]);
      assert ([s[0]] + Filter(before, s[1..]))[1..] == Filter(before, s[1..]);
    }
  }

  /** What is installed apart is exactly what the written file leaves out, without comments,
      or the three default packages when it leaves out nothing. */
  lemma FromFileIsRemoved(lines: seq<string>)
    ensures FromFile(lines) ==
      if Removed(lines) == [] then ["torch", "torchvision", "torchaudio"] else Map(Cleaned, Removed(lines))
  {
    forall line <- lines ensures IsTorchLine(Cleaned(line)) == IsTorch(line) { CleanedTwice(line); }
    FilterAfterMap(Cleaned, IsTorchLine, IsTorch, lines);
  }

  // ----------------------------------------------------------------- the profile

  datatype Failure = UnknownProfile | MissingPackage | InvalidPackages

  /** The first profile with that torch profile. */
  function FirstTorchProfile(profiles: seq<Option<Profile>>, key: string): (r: Option<Profile>)
    ensures r.Some? ==> r in profiles && r.value.torchProfile == Text(key)
    ensures r.None? ==> forall p <- profiles :: TorchProfile(p) != Text(key)
  {
    if profiles == [] then None
    else if TorchProfile(profiles[0]) == Text(key) then profiles[0]
    else FirstTorchProfile(profiles[1..], key)
  }

  /** What a profile pins, for a profile that was found. */
  function Pins(profile: Option<Profile>): Result<map<string, string>, Failure> {
    if profile.None? then Err(UnknownProfile)
    else
      match profile.value.packages
      case NoPackages => Ok(map[])
      case NotATable => Err(InvalidPackages)
      case Table(packages) => Ok(packages)
  }

  /** `torch_profile_packages`. */
  method TorchProfilePackages(profiles: seq<Option<Profile>>, key: string)
    returns (r: Result<map<string, string>, Failure>)
    ensures r == Pins(FirstTorchProfile(profiles, key))
  {
    for i := 0 to |profiles|
      invariant FirstTorchProfile(profiles, key) == FirstTorchProfile(profiles[i..], key)
    {
      assert profiles[i..][1..] == profiles[i + 1..];
      if TorchProfile(profiles[i]) == Text(key) {
        var profile := profiles[i].value;
        match profile.packages {
          case NoPackages => return Ok(map[]);
          case NotATable => return Err(InvalidPackages);
          case Table(packages) => return Ok(packages);
        }
      }
    }
    r := Err(UnknownProfile);
  }

  /** `torch_profile_backend`: `Some(None)` stands for its `None`, `None` for the `KeyError`. */
  function BackendOf(profile: Option<Profile>): Option<Option<string>> {
    if profile.None? then None
    else if profile.value.backend in {Absent, Null} || profile.value.backend == Text("requirements") then Some(None)
    else Some(Some(Printed(profile.value.backend)))
  }

  /** `torch_requirements`: the file is not looked at when a profile is given. */
  method TorchRequirements(lines: seq<string>, profiles: seq<Option<Profile>>, key: Option<string>)
    returns (r: Result<seq<string>, Failure>)
    ensures key.None? ==> r == Ok(FromFile(lines))
    ensures key.Some? ==>
      var pins := Pins(FirstTorchProfile(profiles, key.value));
      match pins
      case Err(e) => r == Err(e)
      case Ok(packages) =>
        if TORCH_NAMES <= packages.Keys
        then r == Ok([packages["torch"], packages["torchvision"], packages["torchaudio"]])
        else r == Err(MissingPackage)
  {
    if key.None? { return Ok(FromFile(lines)); }
    var pins := TorchProfilePackages(profiles, key.value);
    if pins.Err? { return Err(pins.error); }
    var packages := pins.value;
    var names, found := ["torch", "torchvision", "torchaudio"], [];
    for i := 0 to 3
      invariant |found| == i
      invariant forall j | 0 <= j < i :: names[j] in packages && found[j] == packages[names[j]]
    {
      assert names[i] in TORCH_NAMES;
      if names[i] !in packages { return Err(MissingPackage); }
      found := found + [packages[names[i]]];
    }
    assert names[0] in packages && names[1] in packages && names[2] in packages;
    assert found == [packages[names[0]], packages[names[1]], packages[names[2]]];
    r := Ok(found);
  }

  /** On a validated catalog a profile with a backend of its own pins all three packages, so the install
      step that asks for them never fails; a profile that follows the requirements file may lack them. */
  lemma BackendMeansPins(profiles: seq<Option<Profile>>, key: string)
    requires ValidProfiles(profiles)
    ensures var found := FirstTorchProfile(profiles, key);
      BackendOf(found).Some? && BackendOf(found).value.Some? ==>
        Pins(found).Ok? && TORCH_NAMES <= Pins(found).value.Keys
  {}
}

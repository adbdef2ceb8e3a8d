/** The string helpers of the `Utils` class: indirect-string resolution,
    icon-path normalisation and the `"file,index"` split at the top of
    `LoadIcon`. The Windows calls they wrap (`SHLoadIndirectString`,
    `Environment.ExpandEnvironmentVariables`) are parameters. */
module Utils {
  import opened Wrappers
  import opened DotNetText
  import opened Int32Text

  /** `SHLoadIndirectString` as seen by the caller: `Some(text)` when it
      returns S_OK with `text` in the buffer, `None` for any other HRESULT. */
  type IndirectLoader = string -> Option<string>

  /** `Environment.ExpandEnvironmentVariables`. */
  type EnvExpander = string -> string

  /** Environment expansion only rewrites `%NAME%` references, so a string
      without `%` comes back unchanged. */
  ghost predicate ExpandsOnlyPercent(expand: EnvExpander) {
    forall s: string :: '%' !in s ==> expand(s) == s
  }

  /** `Utils.ResolveIndirectString(raw)`. A blank or null input is returned
      as it is; otherwise the trimmed text is returned, or, for an `@`
      reference the loader resolves, the loader's text. */
  function ResolveIndirectString(raw: Option<string>, load: IndirectLoader): (r: Option<string>)
    ensures r.Some? <==> raw.Some?
    ensures r != raw ==> r == Some(Trim(raw.value)) || r == load(Trim(raw.value))
  {
    if IsNullOrWhiteSpace(raw) then raw
    else
      var t := Trim(raw.value);
      if !StartsWithAt(t) then Some(t)
      else
        match load(t)
        case Some(text) => Some(text)
        case None => Some(t)
  }

  /** `Utils.NormalizeIconPath(raw)`: blank becomes `""`; otherwise trim,
      drop one leading `@`, and expand environment variables. */
  function NormalizeIconPath(raw: Option<string>, expand: EnvExpander): (r: string)
    ensures IsNullOrWhiteSpace(raw) ==> r == ""
  {
    if IsNullOrWhiteSpace(raw) then ""
    else
      var t := Trim(raw.value);
      var u := if StartsWithAt(t) then t[1..] else t;
      expand(u)
  }

  /** Where `LoadIcon` asks `ExtractIconEx` to look: a file and an icon index. */
  datatype IconLocation = IconLocation(file: string, index: int)

  /** The first three lines of `Utils.LoadIcon`: `parts = path.Split(',')`,
      the file is `parts[0]`, the index `int.Parse(parts[1])` when there is a
      second part and 0 otherwise; `int.Parse` may throw. */
  function ParseIconLocation(path: string): (r: Result<IconLocation, ParseError>)
    ensures r.Ok? ==> ',' !in r.value.file && r.value.file <= path && IsInt32(r.value.index)
    ensures ',' !in path ==> r == Ok(IconLocation(path, 0))
    ensures ',' in path ==> (r.Ok? <==> ParseInt32(SecondPart(path, ',').value).Ok?)
    ensures r.Ok? ==> r.value.file == FirstPart(path, ',')
    ensures ',' in path && r.Ok? ==> r.value.index == ParseInt32(SecondPart(path, ',').value).value
  {
    var file := FirstPart(path, ',');
    match SecondPart(path, ',')
    case None => Ok(IconLocation(file, 0))
    case Some(index) =>
      match ParseInt32(index)
      case Ok(i) => Ok(IconLocation(file, i))
      case Err(e) => Err(e)
  }

  /** The `"file,index"` text the Windows shell writes for an icon location. */
  function FormatIconLocation(loc: IconLocation): string {
    loc.file + "," + Int32ToString(loc.index)
  }

  // ---------------------------------------------------------------------
  // ResolveIndirectString

  lemma ResolveIndirectKeepsBlank(raw: Option<string>, load: IndirectLoader)
    requires IsNullOrWhiteSpace(raw)
    ensures ResolveIndirectString(raw, load) == raw
  {
  }

  /** Text that is not an `@` reference comes back trimmed, and resolving it
      again changes nothing. */
  lemma ResolveIndirectLiteral(raw: string, load: IndirectLoader)
    requires !AllWhiteSpace(raw) && !StartsWithAt(Trim(raw))
    ensures ResolveIndirectString(Some(raw), load) == Some(Trim(raw))
    ensures ResolveIndirectString(ResolveIndirectString(Some(raw), load), load)
         == ResolveIndirectString(Some(raw), load)
  {
    TrimIdempotent(raw);
  }

  /** An `@` reference resolves to the loader's text when the loader succeeds
      and to the trimmed reference itself when it fails. */
  lemma ResolveIndirectReference(raw: string, load: IndirectLoader)
    requires !AllWhiteSpace(raw) && StartsWithAt(Trim(raw))
    ensures load(Trim(raw)).Some? ==> ResolveIndirectString(Some(raw), load) == load(Trim(raw))
    ensures load(Trim(raw)).None? ==> ResolveIndirectString(Some(raw), load) == Some(Trim(raw))
  {
  }

  /** White space around a literal name is dropped and nothing else is. */
  lemma ResolveIndirectOfPadded(a: string, name: string, b: string, load: IndirectLoader)
    requires AllWhiteSpace(a) && AllWhiteSpace(b)
    requires name != "" && IsTrimmed(name) && name[0] != '@'
    ensures ResolveIndirectString(Some(a + name + b), load) == Some(name)
  {
    TrimOfPadded(a, name, b);
    assert !IsWhiteSpace((a + name + b)[|a|]);
  }

  // ---------------------------------------------------------------------
  // NormalizeIconPath

  /** Without `%` references, normalisation is trimming followed by the
      removal of exactly one leading `@`. */
  lemma {:induction false} NormalizeWithoutVariables(raw: string, expand: EnvExpander)
    requires ExpandsOnlyPercent(expand) && '%' !in raw && !AllWhiteSpace(raw)
    ensures StartsWithAt(Trim(raw)) ==> "@" + NormalizeIconPath(Some(raw), expand) == Trim(raw)
    ensures !StartsWithAt(Trim(raw)) ==> NormalizeIconPath(Some(raw), expand) == Trim(raw)
  {
    var t := Trim(raw);
    var a, b := TrimRemovesOnlyWhiteSpace(raw);
    AbsentFromInfix(a, t, b, '%');
    var u := if StartsWithAt(t) then t[1..] else t;
    assert '%' !in u by {
      if StartsWithAt(t) {
        AbsentFromInfix("@", u, "", '%');
      }
    }
    assert expand(u) == u;
    if StartsWithAt(t) {
      assert "@" + u == t;
    }
  }

  lemma AbsentFromInfix(a: string, t: string, b: string, c: char)
    requires c !in a + t + b
    ensures c !in t
  {
  }

  /** White space around an icon path without `%` references is dropped,
      then one leading `@`, if present. */
  lemma NormalizeOfPadded(a: string, t: string, b: string, expand: EnvExpander)
    requires ExpandsOnlyPercent(expand)
    requires AllWhiteSpace(a) && AllWhiteSpace(b) && t != "" && IsTrimmed(t) && '%' !in t
    ensures NormalizeIconPath(Some(a + t + b), expand) == (if t[0] == '@' then t[1..] else t)
  {
    var raw := a + t + b;
    TrimOfPadded(a, t, b);
    assert raw[|a|] == t[0];
    assert '%' !in raw;
    NormalizeWithoutVariables(raw, expand);
    if t[0] == '@' {
      assert t == "@" + t[1..];
    }
  }

  lemma NormalizeOfTrimmed(t: string, expand: EnvExpander)
    requires ExpandsOnlyPercent(expand)
    requires t != "" && IsTrimmed(t) && '%' !in t
    ensures NormalizeIconPath(Some(t), expand) == (if t[0] == '@' then t[1..] else t)
  {
    assert "" + t + "" == t;
    NormalizeOfPadded("", t, "", expand);
  }

  lemma PercentIsNotWhiteSpace(w: string)
    requires AllWhiteSpace(w)
    ensures '%' !in w
  {
  }

  /** Only one `@` is removed: `@@x` normalises to `@x`. */
  lemma NormalizeRemovesOnlyOneAt(a: string, x: string, b: string, expand: EnvExpander)
    requires ExpandsOnlyPercent(expand)
    requires AllWhiteSpace(a) && AllWhiteSpace(b) && IsTrimmed("@@" + x) && '%' !in x
    ensures NormalizeIconPath(Some(a + ("@@" + x) + b), expand) == "@" + x
  {
    DoubleAtFacts(x);
    NormalizeOfPadded(a, "@@" + x, b, expand);
  }

  lemma DoubleAtFacts(x: string)
    requires '%' !in x
    ensures ("@@" + x)[0] == '@' && ("@@" + x)[1..] == "@" + x && '%' !in "@@" + x
  {
    assert ("@@" + x)[1..] == "@" + x;
  }

  /** White space right after the `@` stays in the result. */
  lemma NormalizeKeepsSpaceAfterAt(w: string, x: string, expand: EnvExpander)
    requires ExpandsOnlyPercent(expand)
    requires AllWhiteSpace(w) && x != "" && !IsWhiteSpace(x[|x| - 1]) && '%' !in x
    ensures NormalizeIconPath(Some("@" + w + x), expand) == w + x
  {
    SpaceAfterAtFacts(w, x);
    NormalizeOfTrimmed("@" + w + x, expand);
  }

  lemma SpaceAfterAtFacts(w: string, x: string)
    requires AllWhiteSpace(w) && x != "" && !IsWhiteSpace(x[|x| - 1]) && '%' !in x
    ensures var t := "@" + w + x; t != "" && t[0] == '@' && IsTrimmed(t) && '%' !in t && t[1..] == w + x
  {
    var t := "@" + w + x;
    assert t[0] == '@' && t[|t| - 1] == x[|x| - 1];
    PercentIsNotWhiteSpace(w);
    assert t[1..] == w + x;
  }

  // ---------------------------------------------------------------------
  // LoadIcon's location split

  /** Splitting the shell's `"file,index"` text gives back file and index. */
  lemma ParseFormatIconLocation(loc: IconLocation)
    requires ',' !in loc.file && IsInt32(loc.index)
    ensures ParseIconLocation(FormatIconLocation(loc)) == Ok(loc)
  {
    var digits := Int32ToString(loc.index);
    var path := loc.file + "," + digits;
    ParseOfToString(loc.index);
    assert ',' !in digits;
    SplitAtFirstComma(loc.file, digits);
  }

  lemma SplitAtFirstComma(file: string, rest: string)
    requires ',' !in file
    ensures FirstPart(file + "," + rest, ',') == file
    ensures SecondPart(file + "," + rest, ',') == Some(FirstPart(rest, ','))
  {
    var s := file + "," + rest;
    assert s[|file|] == ',';
    assert s[..|file|] == file;
    var k := IndexOf(s, ',');
    assert k.Some? && k.value == |file|;
    assert s[|file| + 1..] == rest;
  }

  /** Parts after the second comma never influence the location. */
  lemma IconLocationIgnoresLaterParts(file: string, index: string, rest: string)
    requires ',' !in file && ',' !in index
    ensures ParseIconLocation(file + "," + index + "," + rest) == ParseIconLocation(file + "," + index)
  {
    var long, short := file + "," + index + "," + rest, file + "," + index;
    assert long == file + "," + (index + "," + rest);
    SplitAtFirstComma(file, index + "," + rest);
    SplitAtFirstComma(file, index);
    SplitAtFirstComma(index, rest);
    assert FirstPart(index, ',') == index;
    SamePartsSameLocation(long, short);
  }

  lemma SamePartsSameLocation(s: string, t: string)
    requires FirstPart(s, ',') == FirstPart(t, ',') && SecondPart(s, ',') == SecondPart(t, ',')
    ensures ParseIconLocation(s) == ParseIconLocation(t)
  {
  }

  /** A second part without any digit makes `int.Parse` throw a format error. */
  lemma IconLocationNonNumericIndex(file: string, index: string)
    requires ',' !in file && forall i :: 0 <= i < |index| ==> !IsDigit(index[i])
    ensures ParseIconLocation(file + "," + index) == Err(FormatError)
  {
    SplitAtFirstComma(file, index);
    ParseWithoutDigitsPrefix(index);
  }

  lemma ParseWithoutDigitsPrefix(index: string)
    requires forall i :: 0 <= i < |index| ==> !IsDigit(index[i])
    ensures ParseInt32(FirstPart(index, ',')) == Err(FormatError)
  {
    var p := FirstPart(index, ',');
    assert p <= index;
    ParseWithoutDigits(p);
  }
}
